/** Whole runs through the bridge: any calls, in any order, with any failures. */
module BridgeRuns {
  import opened Ranges
  import opened ModelTarget
  import opened Scatter
  import opened SelectiveWrites
  import opened WritePlanning
  import opened KvUpdate
  import opened KvBatch
  import opened AttentionBridge

  // ----- what the calls alone decide

  /** Where a request stands: about to run a layer, ended by a failure, or ended by a receipt. */
  datatype Progress = Running(next: nat) | Halted(next: nat) | Completed

  /** The effect of one call on the progress of the request. */
  ghost function Advance(plan: WritePlan, caches: seq<Cache>, at: Progress, call: Call): Progress
    requires |caches| == NUM_LAYERS
  {
    if !at.Running? then at
    else if call.FinishCall? then (if at.next == NUM_LAYERS then Completed else Halted(at.next))
    else if at.next < NUM_LAYERS && Runs(plan, call, at.next, caches[at.next]) then Running(at.next + 1)
    else Halted(at.next)
  }

  /** The progress after the first `k` calls. */
  ghost function After(plan: WritePlan, caches: seq<Cache>, calls: seq<Call>, k: nat): Progress
    requires |caches| == NUM_LAYERS && k <= |calls|
  {
    if k == 0 then Running(0) else Advance(plan, caches, After(plan, caches, calls, k - 1), calls[k - 1])
  }

  /** Call number `l` runs layer `l`. */
  ghost predicate RunsLayer(plan: WritePlan, caches: seq<Cache>, calls: seq<Call>, l: nat)
    requires |caches| == NUM_LAYERS
  {
    l < |calls| && l < NUM_LAYERS && Runs(plan, calls[l], l, caches[l])
  }

  ghost predicate RunsFirst(plan: WritePlan, caches: seq<Cache>, calls: seq<Call>, n: nat)
    requires |caches| == NUM_LAYERS
  {
    forall l :: 0 <= l < n ==> RunsLayer(plan, caches, calls, l)
  }

  /** Every layer in turn and then a finish; whatever follows is too late to matter. */
  ghost predicate WholeRequest(plan: WritePlan, caches: seq<Cache>, calls: seq<Call>)
    requires |caches| == NUM_LAYERS
  {
    RunsFirst(plan, caches, calls, NUM_LAYERS) && |calls| > NUM_LAYERS && calls[NUM_LAYERS].FinishCall?
  }

  /** A request still running has spent exactly one call per layer; a halted one was halted
      by the call after its last good layer. */
  lemma {:induction false} ProgressMeaning(plan: WritePlan, caches: seq<Cache>, calls: seq<Call>, k: nat)
    requires |caches| == NUM_LAYERS && k <= |calls|
    ensures var at := After(plan, caches, calls, k);
      && (at.Running? <==> RunsFirst(plan, caches, calls, k))
      && (at.Running? ==> at.next == k)
      && (at.Halted? ==>
        at.next < k && RunsFirst(plan, caches, calls, at.next) && !RunsLayer(plan, caches, calls, at.next))
      && (at.Completed? <==> k > NUM_LAYERS && WholeRequest(plan, caches, calls))
  {
    if k > 0 {
      ProgressMeaning(plan, caches, calls, k - 1);
      var was := After(plan, caches, calls, k - 1);
      if !RunsFirst(plan, caches, calls, k - 1) {
        assert !RunsFirst(plan, caches, calls, k);
      } else {
        assert RunsFirst(plan, caches, calls, k) <==> RunsLayer(plan, caches, calls, k - 1);
      }
    }
  }

  /** A receipt is earned exactly by a whole request. */
  lemma CompletedIff(plan: WritePlan, caches: seq<Cache>, calls: seq<Call>)
    requires |caches| == NUM_LAYERS
    ensures After(plan, caches, calls, |calls|).Completed? <==> WholeRequest(plan, caches, calls)
  {
    ProgressMeaning(plan, caches, calls, |calls|);
  }

  /** The progress a bridge records. */
  ghost function StateOf(bridge: Bridge): Progress
    reads bridge
  {
    if bridge.failed then Halted(bridge.nextLayer) else if bridge.finished then Completed else Running(bridge.nextLayer)
  }

  // ----- what the calls leave in the caches

  /** Layer `l` was completely written, with the rows its own call supplied. */
  ghost predicate WrittenByCall(plan: WritePlan, before: LayerState, now: LayerState, calls: seq<Call>, l: nat) {
    l < |calls| && calls[l].RunCall? && LayerUpdated(plan, before, now, calls[l].input, l)
  }

  /** Layer `l` was written at most where and what its own call planned. */
  ghost predicate TouchedByCall(plan: WritePlan, before: LayerState, now: LayerState, calls: seq<Call>, l: nat) {
    l < |calls| && calls[l].RunCall? && LayerPartlyUpdated(plan, before, now, calls[l].input, l)
  }

  lemma WrittenIsTouched(plan: WritePlan, before: LayerState, now: LayerState, calls: seq<Call>, l: nat)
    requires WrittenByCall(plan, before, now, calls, l)
    ensures TouchedByCall(plan, before, now, calls, l)
  {
    UpdatedIsPartial(plan, before, now, calls[l].input, l);
  }

  /** The caches after some calls: layers before the current one are done; the current one may
      have been interrupted, but only in a halted request; later layers are untouched. */
  ghost predicate History(
      plan: WritePlan, before: seq<LayerState>, now: seq<LayerState>, calls: seq<Call>, at: Progress)
  {
    var next := if at.Completed? then NUM_LAYERS else at.next;
    && |before| == |now| == NUM_LAYERS && next <= NUM_LAYERS
    && (forall l :: 0 <= l < next ==> WrittenByCall(plan, before[l], now[l], calls, l))
    && (forall l :: next < l < NUM_LAYERS ==> now[l] == before[l])
    && (next < NUM_LAYERS ==>
      now[next] == before[next] || (at.Halted? && TouchedByCall(plan, before[next], now[next], calls, next)))
  }

  lemma HistoryDone(
      plan: WritePlan, before: seq<LayerState>, now: seq<LayerState>, calls: seq<Call>, next: nat, after: LayerState)
    requires History(plan, before, now, calls, Running(next)) && next < NUM_LAYERS
    requires next < |calls| && calls[next].RunCall? && LayerUpdated(plan, now[next], after, calls[next].input, next)
    ensures History(plan, before, now[next := after], calls, Running(next + 1))
  {
    assert WrittenByCall(plan, before[next], after, calls, next);
  }

  lemma HistoryStopped(
      plan: WritePlan, before: seq<LayerState>, now: seq<LayerState>, calls: seq<Call>, next: nat, after: LayerState)
    requires History(plan, before, now, calls, Running(next)) && next < NUM_LAYERS
    requires next < |calls| && calls[next].RunCall?
      && LayerPartlyUpdated(plan, now[next], after, calls[next].input, next)
    ensures History(plan, before, now[next := after], calls, Halted(next))
  {
    assert TouchedByCall(plan, before[next], after, calls, next);
  }

  /** What each call of a run finds and leaves behind: the progress the calls decide, and the
      caches that go with it. */
  ghost predicate Follows(bridge: Bridge, caches: seq<Cache>, calls: seq<Call>, k: nat, before: seq<LayerState>)
    requires |caches| == NUM_LAYERS && k <= |calls|
    reads bridge, bridge.session, Arrays(caches)
  {
    && bridge.Valid()
    && StateOf(bridge) == After(bridge.session.plan, caches, calls, k)
    && History(bridge.session.plan, before, States(caches), calls, StateOf(bridge))
  }

  // ----- running the calls

  /** One layer call on the cache of the layer it names. */
  method RunOn(bridge: Bridge, caches: seq<Cache>, call: Call, l: nat) returns (r: BridgeResult<()>)
    requires bridge.Valid() && Separate(caches) && l < |caches| && call.RunCall?
    requires {bridge as object, bridge.session as object} !! Arrays(caches)
    modifies bridge, bridge.session, caches[l].keys, caches[l].values
    ensures bridge.Valid()
    ensures States(caches) == old(States(caches))[l := Contents(caches[l])]
    ensures r.Ran? <==> old(bridge.Active()) && Runs(bridge.session.plan, call, old(bridge.nextLayer), caches[l])
    ensures r.Ran? ==> bridge.Active() && bridge.nextLayer == old(bridge.nextLayer) + 1
    ensures r.Ran? ==>
      LayerUpdated(bridge.session.plan, old(States(caches))[l], Contents(caches[l]), call.input, old(bridge.nextLayer))
    ensures r.Stopped? ==>
      !bridge.Active() && bridge.nextLayer == old(bridge.nextLayer) && bridge.finished == old(bridge.finished)
    ensures !old(bridge.Active()) ==> bridge.failed == old(bridge.failed)
    ensures bridge.log != old(bridge.log) <==> old(bridge.Active()) && Refusal(call, old(bridge.nextLayer)).None?
    ensures bridge.log == old(bridge.log) ==> Contents(caches[l]) == old(States(caches))[l]
    ensures r.Stopped? && bridge.log != old(bridge.log) ==>
      LayerPartlyUpdated(bridge.session.plan, old(States(caches))[l], Contents(caches[l]), call.input, bridge.nextLayer)
  {
    r := bridge.RunLayer(call, caches[l]);
    forall i | 0 <= i < |caches| && i != l
      ensures Contents(caches[i]) == old(Contents(caches[i]))
    {
      assert {caches[i].keys, caches[i].values} !! {caches[l].keys, caches[l].values};
    }
  }

  /** One call of either kind: the bridge goes where the calls say, a receipt appears only when
      the request completes, and an ended request is left as it is. */
  method Step(bridge: Bridge, caches: seq<Cache>, calls: seq<Call>, k: nat, ghost before: seq<LayerState>)
      returns (receipts: seq<Receipt>)
    requires Separate(caches) && |caches| == NUM_LAYERS && k < |calls|
    requires {bridge as object, bridge.session as object} !! Arrays(caches)
    requires Follows(bridge, caches, calls, k, before)
    modifies bridge, bridge.session, Arrays(caches)
    ensures Follows(bridge, caches, calls, k + 1, before)
    ensures receipts != [] <==> calls[k].FinishCall? && old(bridge.Active()) && old(bridge.nextLayer) == NUM_LAYERS
    ensures receipts != [] ==> receipts == [BatchReceipt(bridge.session.plan)]
    ensures bridge.finished <==> old(bridge.finished) || receipts != []
    ensures !old(bridge.Active()) ==> States(caches) == old(States(caches)) && bridge.log == old(bridge.log)
  {
    receipts := [];
    if calls[k].FinishCall? {
      var done := bridge.Finish();
      if done.Ran? {
        receipts := [done.value];
      }
      assert States(caches) == old(States(caches));
    } else {
      ProgressMeaning(bridge.session.plan, caches, calls, k);
      RunStep(bridge, caches, calls, k, before);
    }
  }

  /** What a layer call may do to the cache of the layer it names: complete the layer and move
      on, or leave at most some of its planned rows behind and halt. */
  ghost predicate CallEffect(
      plan: WritePlan, was: Progress, at: Progress, call: Call, l: nat, before: LayerState, now: LayerState)
    requires call.RunCall?
  {
    if was.Running? && at == Running(was.next + 1) then
      l == was.next && LayerUpdated(plan, before, now, call.input, l)
    else
      && (at == was || (was.Running? && at == Halted(was.next)))
      && (now == before
        || (was == Running(l) && at == Halted(l) && LayerPartlyUpdated(plan, before, now, call.input, l)))
  }

  /** One layer call and the progress it makes. */
  method RunNext(bridge: Bridge, caches: seq<Cache>, call: Call) returns (l: nat)
    requires Separate(caches) && |caches| == NUM_LAYERS && call.RunCall? && bridge.Valid()
    requires {bridge as object, bridge.session as object} !! Arrays(caches)
    modifies bridge, bridge.session, Arrays(caches)
    ensures bridge.Valid() && l < NUM_LAYERS
    ensures StateOf(bridge) == Advance(bridge.session.plan, caches, old(StateOf(bridge)), call)
    ensures States(caches) == old(States(caches))[l := Contents(caches[l])]
    ensures CallEffect(bridge.session.plan, old(StateOf(bridge)), StateOf(bridge), call, l,
                       old(States(caches))[l], Contents(caches[l]))
    ensures !old(bridge.Active()) ==> Contents(caches[l]) == old(States(caches))[l] && bridge.log == old(bridge.log)
  {
    l := if 0 <= call.layer < NUM_LAYERS then call.layer else 0;
    var r := RunOn(bridge, caches, call, l);
  }

  /** The history after one layer call. */
  lemma HistoryStep(
      plan: WritePlan, before: seq<LayerState>, now: seq<LayerState>, calls: seq<Call>, k: nat,
      was: Progress, at: Progress, l: nat, after: LayerState)
    requires k < |calls| && calls[k].RunCall? && |now| == NUM_LAYERS && l < NUM_LAYERS
    requires was.Running? ==> was.next == k
    requires History(plan, before, now, calls, was)
    requires CallEffect(plan, was, at, calls[k], l, now[l], after)
    ensures History(plan, before, now[l := after], calls, at)
  {
    if was == Running(k) && at == Running(k + 1) {
      HistoryDone(plan, before, now, calls, k, after);
    } else if after != now[l] {
      HistoryStopped(plan, before, now, calls, k, after);
    } else {
      assert now[l := after] == now;
    }
  }

  method RunStep(bridge: Bridge, caches: seq<Cache>, calls: seq<Call>, k: nat, ghost before: seq<LayerState>)
    requires Separate(caches) && |caches| == NUM_LAYERS && k < |calls| && calls[k].RunCall? && bridge.Valid()
    requires {bridge as object, bridge.session as object} !! Arrays(caches)
    requires bridge.Active() ==> bridge.nextLayer == k
    requires History(bridge.session.plan, before, States(caches), calls, StateOf(bridge))
    modifies bridge, bridge.session, Arrays(caches)
    ensures bridge.Valid()
    ensures StateOf(bridge) == Advance(bridge.session.plan, caches, old(StateOf(bridge)), calls[k])
    ensures History(bridge.session.plan, before, States(caches), calls, StateOf(bridge))
    ensures !old(bridge.Active()) ==> States(caches) == old(States(caches)) && bridge.log == old(bridge.log)
  {
    ghost var now, was := States(caches), StateOf(bridge);
    var l := RunNext(bridge, caches, calls[k]);
    HistoryStep(bridge.session.plan, before, now, calls, k, was, StateOf(bridge), l, Contents(caches[l]));
  }

  lemma {:induction false} TracePrefix(k: nat, n: nat)
    requires k <= n
    ensures Trace(k) <= Trace(n)
    ensures k < n ==> Trace(k) + [Updated(k)] <= Trace(n)
  {
    if k < n {
      TracePrefix(k, n - 1);
    }
  }

  /** Any sequence of calls: the log is a prefix of update-0, attend-0, update-1, ...; every
      layer holds only its own call's planned writes; and there is one receipt if the calls
      make a whole request, otherwise none. */
  method Drive(bridge: Bridge, caches: seq<Cache>, calls: seq<Call>) returns (receipts: seq<Receipt>)
    requires bridge.Valid() && bridge.Active() && bridge.nextLayer == 0 && Separate(caches) && |caches| == NUM_LAYERS
    requires {bridge as object, bridge.session as object} !! Arrays(caches)
    modifies bridge, bridge.session, Arrays(caches)
    ensures bridge.log <= Trace(NUM_LAYERS)
    ensures Follows(bridge, caches, calls, |calls|, old(States(caches)))
    ensures receipts == if WholeRequest(bridge.session.plan, caches, calls) then [BatchReceipt(bridge.session.plan)]
      else []
    ensures receipts != [] ==> bridge.log == Trace(NUM_LAYERS) && bridge.nextLayer == NUM_LAYERS
  {
    receipts := DriveAll(bridge, caches, calls);
    CompletedIff(bridge.session.plan, caches, calls);
    TracePrefix(bridge.nextLayer, NUM_LAYERS);
  }

  /** What a run keeps: the calls so far decide the progress, the caches and the receipts. */
  ghost predicate RunSoFar(
      bridge: Bridge, caches: seq<Cache>, calls: seq<Call>, k: nat, before: seq<LayerState>, receipts: seq<Receipt>)
    requires |caches| == NUM_LAYERS && k <= |calls|
    reads bridge, bridge.session, Arrays(caches)
  {
    && Follows(bridge, caches, calls, k, before)
    && receipts == if bridge.finished then [BatchReceipt(bridge.session.plan)] else []
  }

  method DriveOne(
      bridge: Bridge, caches: seq<Cache>, calls: seq<Call>, k: nat, ghost before: seq<LayerState>,
      receipts: seq<Receipt>)
      returns (now: seq<Receipt>)
    requires Separate(caches) && |caches| == NUM_LAYERS && k < |calls|
    requires {bridge as object, bridge.session as object} !! Arrays(caches)
    requires RunSoFar(bridge, caches, calls, k, before, receipts)
    modifies bridge, bridge.session, Arrays(caches)
    ensures RunSoFar(bridge, caches, calls, k + 1, before, now)
  {
    var more := Step(bridge, caches, calls, k, before);
    now := receipts + more;
  }

  method DriveAll(bridge: Bridge, caches: seq<Cache>, calls: seq<Call>) returns (receipts: seq<Receipt>)
    requires bridge.Valid() && bridge.Active() && bridge.nextLayer == 0 && Separate(caches) && |caches| == NUM_LAYERS
    requires {bridge as object, bridge.session as object} !! Arrays(caches)
    modifies bridge, bridge.session, Arrays(caches)
    ensures RunSoFar(bridge, caches, calls, |calls|, old(States(caches)), receipts)
  {
    receipts := [];
    for k := 0 to |calls|
      invariant RunSoFar(bridge, caches, calls, k, old(States(caches)), receipts)
    {
      receipts := DriveOne(bridge, caches, calls, k, old(States(caches)), receipts);
    }
  }

  // ----- the ordinary request

  /** One undisturbed call for every layer in order, and a finish. */
  function OrdinaryCalls(inputs: seq<LayerInput>): (calls: seq<Call>)
    ensures |calls| == |inputs| + 1 && calls[|inputs|] == FinishCall
    ensures forall l :: 0 <= l < |inputs| ==> calls[l] == RunCall(l, inputs[l], true, true, false, NoFault)
  {
    seq(|inputs|, l requires 0 <= l < |inputs| => RunCall(l, inputs[l], true, true, false, NoFault)) + [FinishCall]
  }

  lemma OrdinaryIsWhole(plan: WritePlan, inputs: seq<LayerInput>, caches: seq<Cache>)
    requires |inputs| == NUM_LAYERS && |caches| == NUM_LAYERS
    ensures WholeRequest(plan, caches, OrdinaryCalls(inputs)) <==> AllPrepared(plan, inputs, caches)
  {
    var calls := OrdinaryCalls(inputs);
    forall l | 0 <= l < NUM_LAYERS
      ensures RunsLayer(plan, caches, calls, l) <==> LayerReady(plan, inputs, caches, l)
    {
      assert calls[l] == RunCall(l, inputs[l], true, true, false, NoFault);
    }
    assert RunsFirst(plan, caches, calls, NUM_LAYERS) <==> AllPrepared(plan, inputs, caches);
  }

  lemma HistoryIsUpdate(
      plan: WritePlan, before: seq<LayerState>, now: seq<LayerState>, inputs: seq<LayerInput>)
    requires |inputs| == NUM_LAYERS && History(plan, before, now, OrdinaryCalls(inputs), Completed)
    ensures UpdatedUpTo(plan, before, now, inputs, NUM_LAYERS)
  {
    var calls := OrdinaryCalls(inputs);
    forall l | 0 <= l < NUM_LAYERS
      ensures LayerUpdated(plan, before[l], now[l], inputs[l], l)
    {
      assert WrittenByCall(plan, before[l], now[l], calls, l);
    }
  }

  /** An undisturbed request through the bridge ends with the receipt and the caches of the
      all-layer update, in exactly the cases in which that update's preflight succeeds. */
  method RunRequest(bridge: Bridge, caches: seq<Cache>, inputs: seq<LayerInput>) returns (receipts: seq<Receipt>)
    requires bridge.Valid() && bridge.Active() && bridge.nextLayer == 0 && Separate(caches)
    requires |caches| == NUM_LAYERS && |inputs| == NUM_LAYERS
    requires {bridge as object, bridge.session as object} !! Arrays(caches)
    modifies bridge, bridge.session, Arrays(caches)
    ensures receipts ==
      if AllPrepared(bridge.session.plan, inputs, caches) then [BatchReceipt(bridge.session.plan)] else []
    ensures receipts != [] ==>
      UpdatedUpTo(bridge.session.plan, old(States(caches)), States(caches), inputs, NUM_LAYERS)
  {
    receipts := Drive(bridge, caches, OrdinaryCalls(inputs));
    OrdinaryIsWhole(bridge.session.plan, inputs, caches);
    if receipts != [] {
      HistoryIsUpdate(bridge.session.plan, old(States(caches)), States(caches), inputs);
    }
  }

  /** In every run, failed or not, the slots of cached positions keep their rows. */
  lemma RunKeepsCachedSlots(
      plan: WritePlan, before: seq<LayerState>, now: seq<LayerState>, calls: seq<Call>, at: Progress, l: nat, p: nat)
    requires ValidWritePlan(plan) && History(plan, before, now, calls, at)
    requires l < NUM_LAYERS && DistinctSlotsIn(plan, l)
    requires p < |SlotsOf(ForLayer(plan.full, l))| && p !in Union(plan.rowPlan.layers[l].recompute)
    ensures var slot := SlotsOf(ForLayer(plan.full, l))[p];
      (slot < |before[l].keys| == |now[l].keys| ==> now[l].keys[slot] == before[l].keys[slot])
      && (slot < |before[l].values| == |now[l].values| ==> now[l].values[slot] == before[l].values[slot])
  {
    if now[l] != before[l] {
      if at.Completed? || l < at.next {
        WrittenIsTouched(plan, before[l], now[l], calls, l);
      }
      CachedSlotKept(plan, before[l], now[l], calls[l].input, l, p);
    }
  }
}
