/** The ordering bridge: each layer's rows are updated before its attention runs, layers go
    in order, and the first failure ends the request. */
module AttentionBridge {
  import opened Models
  import opened ModelTarget
  import opened SelectiveWrites
  import opened KvUpdate
  import opened KvBatch
  import opened KvSession

  datatype BridgeError =
    | InvalidSession
    | InvalidLayer
    | LayerOrderMismatch
    | SinkRequired
    | InvalidAttention
    | UpdateFailed
    | AttentionFailed
    | Incomplete

  datatype BridgeResult<+T> = Ran(value: T) | Stopped(error: BridgeError)

  datatype Step = Updated(layer: nat) | Attended(layer: nat)

  /** update-0, attend-0, update-1, attend-1, ... for the first `k` layers. */
  function Trace(k: nat): seq<Step> {
    if k == 0 then [] else Trace(k - 1) + [Updated(k - 1), Attended(k - 1)]
  }

  /** One call into the bridge, with everything the caller and the environment choose. */
  datatype Call =
    | RunCall(layer: int, input: LayerInput, hasSinks: bool, callable: bool, attentionFails: bool, fault: Fault)
    | FinishCall

  /** Why a layer call is turned away before anything is touched. */
  function Refusal(call: Call, next: nat): Option<BridgeError>
    requires call.RunCall?
  {
    if !(0 <= call.layer < NUM_LAYERS) then Some(BridgeError.InvalidLayer)
    else if call.layer != next then Some(LayerOrderMismatch)
    else if !call.hasSinks then Some(SinkRequired)
    else if !call.callable then Some(InvalidAttention)
    else None
  }

  /** Exactly when a layer call on an active bridge runs to the end: it is the next layer, it
      brings sinks and a callable, its update is prepared and survives, and attention succeeds. */
  ghost predicate Runs(plan: WritePlan, call: Call, next: nat, cache: Cache) {
    && call.RunCall? && Refusal(call, next).None?
    && Prepared(plan, next, call.input, cache.blocks, cache.blockSize) && LayerSurvives(plan, next, call.fault)
    && !call.attentionFails
  }

  class Bridge {
    const session: Session
    var nextLayer: nat
    var failed: bool
    var finished: bool
    ghost var log: seq<Step>

    ghost predicate Valid()
      reads this, session
    {
      && session.Valid() && nextLayer <= NUM_LAYERS
      && (Active() ==> session.Active() && session.nextLayer == nextLayer)
      && (log == Trace(nextLayer)
        || (failed && nextLayer < NUM_LAYERS && log == Trace(nextLayer) + [Updated(nextLayer)]))
      && (!failed ==> log == Trace(nextLayer))
      && (finished ==> !failed && nextLayer == NUM_LAYERS)
    }

    predicate Active()
      reads this
    {
      !failed && !finished
    }

    constructor (session: Session)
      requires session.Valid() && session.Active() && session.nextLayer == 0
      ensures Valid() && Active() && nextLayer == 0 && log == [] && this.session == session
    {
      this.session := session;
      nextLayer, failed, finished, log := 0, false, false, [];
    }

    /** What one attempt does: nothing at all, or an update of the next layer, followed by
        its attention if the update succeeded. */
    method RunLayer(call: Call, cache: Cache) returns (r: BridgeResult<()>)
      requires Valid() && Shaped(cache) && call.RunCall?
      modifies this, session, cache.keys, cache.values
      ensures Valid()
      ensures r.Ran? <==> old(Active()) && Runs(session.plan, call, old(nextLayer), cache)
      ensures r.Ran? ==> Active() && nextLayer == old(nextLayer) + 1
      ensures r.Ran? ==> LayerUpdated(session.plan, old(Contents(cache)), Contents(cache), call.input, old(nextLayer))
      ensures r.Stopped? ==> !Active() && nextLayer == old(nextLayer) && finished == old(finished)
      ensures !old(Active()) ==> r == Stopped(InvalidSession) && failed == old(failed)
      ensures old(Active()) && Refusal(call, old(nextLayer)).Some? ==> r == Stopped(Refusal(call, old(nextLayer)).value)
      ensures log != old(log) <==> old(Active()) && Refusal(call, old(nextLayer)).None?
      ensures log == old(log) ==> Contents(cache) == old(Contents(cache))
      ensures r.Stopped? && log != old(log) ==>
        LayerPartlyUpdated(session.plan, old(Contents(cache)), Contents(cache), call.input, nextLayer)
    {
      if !Active() {
        return Stopped(InvalidSession);
      }
      var refusal := Refusal(call, nextLayer);
      if refusal.Some? {
        failed := true;
        return Stopped(refusal.value);
      }
      r := UpdateAndAttend(call, cache);
    }

    /** The update of the next layer, and its attention if the update succeeded. */
    method UpdateAndAttend(call: Call, cache: Cache) returns (r: BridgeResult<()>)
      requires Valid() && Active() && Shaped(cache) && call.RunCall? && Refusal(call, nextLayer).None?
      modifies this, session, cache.keys, cache.values
      ensures Valid() && log != old(log)
      ensures r.Ran? <==> Runs(session.plan, call, old(nextLayer), cache)
      ensures r.Ran? ==> Active() && nextLayer == old(nextLayer) + 1
      ensures r.Ran? ==> LayerUpdated(session.plan, old(Contents(cache)), Contents(cache), call.input, old(nextLayer))
      ensures r.Stopped? ==> !Active() && nextLayer == old(nextLayer) && finished == old(finished)
      ensures r.Stopped? ==>
        LayerPartlyUpdated(session.plan, old(Contents(cache)), Contents(cache), call.input, nextLayer)
    {
      log := log + [Updated(nextLayer)];
      var updated := session.UpdateLayer(call.layer, call.input, cache, call.fault);
      if updated.Failed? {
        failed := true;
        return Stopped(UpdateFailed);
      }
      if call.attentionFails {
        UpdatedIsPartial(session.plan, old(Contents(cache)), Contents(cache), call.input, nextLayer);
        failed := true;
        return Stopped(AttentionFailed);
      }
      log := log + [Attended(nextLayer)];
      nextLayer := nextLayer + 1;
      r := Ran(());
    }

    /** A receipt needs every layer updated and attended. */
    method Finish() returns (r: BridgeResult<Receipt>)
      requires Valid()
      modifies this, session
      ensures Valid() && nextLayer == old(nextLayer) && log == old(log) && !Active()
      ensures r.Ran? <==> old(Active()) && nextLayer == NUM_LAYERS
      ensures r.Ran? ==> r.value == BatchReceipt(session.plan) && log == Trace(NUM_LAYERS) && finished
      ensures r.Stopped? ==> finished == old(finished)
      ensures old(failed) ==> failed
    {
      if !Active() {
        return Stopped(InvalidSession);
      }
      if nextLayer != NUM_LAYERS {
        failed := true;
        return Stopped(Incomplete);
      }
      var receipt := session.Finish();
      if receipt.Failed? {
        failed := true;
        return Stopped(UpdateFailed);
      }
      finished := true;
      r := Ran(receipt.value);
    }
  }
}
