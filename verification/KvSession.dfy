/** The per-layer session: the same writes, one ordered callback at a time. */
module KvSession {
  import opened Order
  import opened ModelTarget
  import opened Scatter
  import opened RowSelection
  import opened SelectiveWrites
  import opened WritePlanning
  import opened KvUpdate
  import opened KvBatch

  /** Rows recomputed by the first `k` layers. */
  function RowsDone(plan: WritePlan, k: nat): nat
    requires k <= |plan.rowPlan.layers|
  {
    if k == 0 then 0 else RowsDone(plan, k - 1) + plan.rowPlan.layers[k - 1].RecomputeTokens()
  }

  function LayerTotals(plan: WritePlan): (s: seq<nat>)
    ensures |s| == |plan.rowPlan.layers|
  {
    seq(|plan.rowPlan.layers|, i requires 0 <= i < |plan.rowPlan.layers| => plan.rowPlan.layers[i].RecomputeTokens())
  }

  lemma {:induction false} RowsDoneIsSum(plan: WritePlan, k: nat)
    requires k <= |plan.rowPlan.layers|
    ensures RowsDone(plan, k) == SumOf(LayerTotals(plan)[..k])
  {
    if k > 0 {
      RowsDoneIsSum(plan, k - 1);
      assert LayerTotals(plan)[..k][..k - 1] == LayerTotals(plan)[..k - 1];
    }
  }

  /** The session's counters end at the batch totals. */
  lemma AllRowsDone(plan: WritePlan)
    requires plan.rowPlan.Valid()
    ensures RowsDone(plan, NUM_LAYERS) == plan.rowPlan.RecomputeTokens()
  {
    RowsDoneIsSum(plan, NUM_LAYERS);
    TakeAll(LayerTotals(plan));
  }

  class Session {
    const plan: WritePlan
    var nextLayer: nat
    var failed: bool
    var finished: bool
    var recomputedRows: nat
    var writeSpans: nat
    var copiedKeyRows: nat
    var copiedValueRows: nat

    ghost predicate Valid()
      reads this
    {
      && ValidWritePlan(plan) && nextLayer <= NUM_LAYERS
      && recomputedRows == RowsDone(plan, nextLayer) && writeSpans == WriteCount(plan, nextLayer)
      && copiedKeyRows == recomputedRows && copiedValueRows == recomputedRows
      && (finished ==> nextLayer == NUM_LAYERS)
    }

    predicate Active()
      reads this
    {
      !failed && !finished
    }

    constructor (plan: WritePlan)
      requires ValidWritePlan(plan)
      ensures Valid() && Active() && nextLayer == 0 && this.plan == plan
    {
      this.plan := plan;
      nextLayer, failed, finished := 0, false, false;
      recomputedRows, writeSpans, copiedKeyRows, copiedValueRows := 0, 0, 0, 0;
    }

    /** Only the next layer in order, only while active; any failure is final. */
    method UpdateLayer(l: int, input: LayerInput, cache: Cache, fault: Fault) returns (r: UpdateResult<()>)
      requires Valid() && Shaped(cache)
      modifies this, cache.keys, cache.values
      ensures Valid()
      ensures r.Done? <==>
        && old(Active()) && l == old(nextLayer) && l < NUM_LAYERS
        && Prepared(plan, l, input, cache.blocks, cache.blockSize) && LayerSurvives(plan, l, fault)
      ensures r.Done? ==> Active() && nextLayer == old(nextLayer) + 1
      ensures r.Done? ==> LayerUpdated(plan, old(Contents(cache)), Contents(cache), input, old(nextLayer))
      ensures r.Failed? ==> !Active() && nextLayer == old(nextLayer) && finished == old(finished)
      ensures r.Failed? && r.error != MutationFailed ==> Contents(cache) == old(Contents(cache))
      ensures r == Failed(MutationFailed) ==> l == old(nextLayer) < NUM_LAYERS && old(Active())
      ensures r == Failed(MutationFailed) ==>
        LayerPartlyUpdated(plan, old(Contents(cache)), Contents(cache), input, old(nextLayer))
    {
      if !Active() {
        return Failed(SessionInvalidState);
      }
      if !(0 <= l < NUM_LAYERS) {
        failed := true;
        return Failed(SessionInvalidLayer);
      }
      if l < nextLayer {
        failed := true;
        return Failed(SessionDuplicateLayer);
      }
      if l != nextLayer {
        failed := true;
        return Failed(SessionLayerOrderMismatch);
      }
      r := WritePrepared(input, cache, fault);
      if r.Failed? {
        failed := true;
        return;
      }
      recomputedRows := recomputedRows + plan.rowPlan.layers[nextLayer].RecomputeTokens();
      writeSpans := writeSpans + |ForLayer(plan.recompute, nextLayer)|;
      copiedKeyRows := copiedKeyRows + plan.rowPlan.layers[nextLayer].RecomputeTokens();
      copiedValueRows := copiedValueRows + plan.rowPlan.layers[nextLayer].RecomputeTokens();
      nextLayer := nextLayer + 1;
    }

    method WritePrepared(input: LayerInput, cache: Cache, fault: Fault) returns (r: UpdateResult<()>)
      requires Valid() && Shaped(cache) && nextLayer < NUM_LAYERS
      modifies cache.keys, cache.values
      ensures r.Done? <==>
        Prepared(plan, nextLayer, input, cache.blocks, cache.blockSize) && LayerSurvives(plan, nextLayer, fault)
      ensures r.Done? ==> LayerUpdated(plan, old(Contents(cache)), Contents(cache), input, nextLayer)
      ensures r.Failed? && r.error != MutationFailed ==> Contents(cache) == old(Contents(cache))
      ensures r == Failed(MutationFailed) ==>
        LayerPartlyUpdated(plan, old(Contents(cache)), Contents(cache), input, nextLayer)
    {
      var prepared := PrepareLayer(plan, nextLayer, input, cache);
      if prepared.Failed? {
        return Failed(prepared.error);
      }
      var ok := WriteLayer(cache, prepared.value, input, fault);
      if !ok {
        return Failed(MutationFailed);
      }
      UpdatedIsPartial(plan, old(Contents(cache)), Contents(cache), input, nextLayer);
      if !SyncOk(Remaining(fault, 2 * |prepared.value|), 2 * |prepared.value|) {
        return Failed(MutationFailed);
      }
      r := Done(());
    }

    /** A receipt only after every layer, and then it is the batch receipt. */
    method Finish() returns (r: UpdateResult<Receipt>)
      requires Valid()
      modifies this
      ensures Valid() && nextLayer == old(nextLayer)
      ensures r.Done? <==> old(Active()) && nextLayer == NUM_LAYERS
      ensures r.Done? ==> finished && r.value == BatchReceipt(plan)
      ensures !Active()
      ensures finished ==> old(finished) || r.Done?
    {
      if !Active() {
        return Failed(SessionInvalidState);
      }
      if nextLayer != NUM_LAYERS {
        failed := true;
        return Failed(SessionIncomplete);
      }
      finished := true;
      AllRowsDone(plan);
      r := Done(Receipt(recomputedRows, plan.rowPlan.CachedTokens(), writeSpans, copiedKeyRows, copiedValueRows));
    }
  }

  /** Whether one layer's copies and its synchronisation go through. */
  predicate LayerSurvives(plan: WritePlan, l: nat, fault: Fault) {
    Survives(fault, 2 * |ForLayer(plan.recompute, l)|)
    && SyncOk(Remaining(fault, 2 * |ForLayer(plan.recompute, l)|), 2 * |ForLayer(plan.recompute, l)|)
  }

  /** One session callback for layer `l` of many caches. */
  method UpdateOne(session: Session, caches: seq<Cache>, inputs: seq<LayerInput>, l: nat) returns (r: UpdateResult<()>)
    requires session.Valid() && Separate(caches) && l < |caches| && l < |inputs| && session as object !in Arrays(caches)
    modifies session, caches[l].keys, caches[l].values
    ensures session.Valid()
    ensures r.Done? <==>
      old(session.Active()) && l == old(session.nextLayer) < NUM_LAYERS && LayerReady(session.plan, inputs, caches, l)
    ensures r.Done? ==> session.Active() && session.nextLayer == old(session.nextLayer) + 1
    ensures r.Done? ==> States(caches) == old(States(caches))[l := Contents(caches[l])]
    ensures r.Done? ==> LayerUpdated(session.plan, old(States(caches))[l], Contents(caches[l]), inputs[l], l)
  {
    r := session.UpdateLayer(l, inputs[l], caches[l], NoFault);
    forall i | 0 <= i < |caches| && i != l
      ensures Contents(caches[i]) == old(Contents(caches[i]))
    {
      assert {caches[i].keys, caches[i].values} !! {caches[l].keys, caches[l].values};
    }
  }

  /** Driven over all layers in order and without a copy fault, the session ends with the caches
      and the receipt of the fault-free all-layer update, and succeeds in exactly its cases. */
  method RunSession(plan: WritePlan, inputs: seq<LayerInput>, caches: seq<Cache>) returns (r: UpdateResult<Receipt>)
    requires ValidWritePlan(plan) && Separate(caches) && |inputs| == NUM_LAYERS && |caches| == NUM_LAYERS
    modifies Arrays(caches)
    ensures r.Done? <==> AllPrepared(plan, inputs, caches)
    ensures r.Done? ==> r.value == BatchReceipt(plan)
    ensures r.Done? ==> UpdatedUpTo(plan, old(States(caches)), States(caches), inputs, NUM_LAYERS)
  {
    var session := new Session(plan);
    ghost var before := States(caches);
    for l := 0 to NUM_LAYERS
      invariant session.Valid() && session.Active() && session.nextLayer == l && session.plan == plan && fresh(session)
      invariant UpdatedUpTo(plan, before, States(caches), inputs, l)
      invariant forall k :: 0 <= k < l ==> LayerReady(plan, inputs, caches, k)
    {
      var one := UpdateOne(session, caches, inputs, l);
      if one.Failed? {
        assert !LayerReady(plan, inputs, caches, l);
        return Failed(one.error);
      }
    }
    r := session.Finish();
  }

  /** The contract of both paths fixes the final caches, so they agree. */
  lemma SameFinalCaches(
      plan: WritePlan, before: seq<LayerState>, a: seq<LayerState>, b: seq<LayerState>, inputs: seq<LayerInput>,
      k: nat)
    requires UpdatedUpTo(plan, before, a, inputs, k) && UpdatedUpTo(plan, before, b, inputs, k)
    ensures a == b
  {
    forall l | 0 <= l < |before|
      ensures a[l] == b[l]
    {
      if l < k {
        assert LayerUpdated(plan, before[l], a[l], inputs[l], l) && LayerUpdated(plan, before[l], b[l], inputs[l], l);
      }
    }
  }
}
