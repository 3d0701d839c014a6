/** The all-layer update: a preflight that writes nothing, then every layer's copies. */
module KvBatch {
  import opened Order
  import opened Ranges
  import opened ModelTarget
  import opened Scatter
  import opened SelectiveWrites
  import opened WritePlanning
  import opened CacheRows
  import opened KvUpdate

  // ----- many caches

  ghost function Arrays(caches: seq<Cache>): set<object> {
    (set c | c in caches :: c.keys as object) + (set c | c in caches :: c.values as object)
  }

  /** No two components of any layers share memory. */
  ghost predicate Separate(caches: seq<Cache>) {
    && (forall i :: 0 <= i < |caches| ==> Shaped(caches[i]))
    && forall i, j :: 0 <= i < j < |caches| ==>
         {caches[i].keys, caches[i].values} !! {caches[j].keys, caches[j].values}
  }

  ghost function States(caches: seq<Cache>): (s: seq<LayerState>)
    reads Arrays(caches)
    ensures |s| == |caches|
    ensures forall i :: 0 <= i < |caches| ==> s[i] == Contents(caches[i])
  {
    seq(|caches|, i requires 0 <= i < |caches| reads Arrays(caches) => Contents(caches[i]))
  }

  /** Every layer passes its preflight. */
  ghost predicate AllPrepared(plan: WritePlan, inputs: seq<LayerInput>, caches: seq<Cache>) {
    && |inputs| == NUM_LAYERS && |caches| == NUM_LAYERS
    && forall l :: 0 <= l < NUM_LAYERS ==> LayerReady(plan, inputs, caches, l)
  }

  ghost predicate LayerReady(plan: WritePlan, inputs: seq<LayerInput>, caches: seq<Cache>, l: nat)
    requires l < |inputs| && l < |caches|
  {
    Prepared(plan, l, inputs[l], caches[l].blocks, caches[l].blockSize)
  }

  /** Layer `l` of `after` is layer `l` of `before` with its planned rows written. */
  ghost predicate LayerUpdated(plan: WritePlan, before: LayerState, after: LayerState, input: LayerInput, l: nat) {
    var pieces := ForLayer(plan.recompute, l);
    Writable(before, pieces, input) && after == LayerAfter(before, pieces, input)
  }

  ghost predicate LayerPartlyUpdated(
      plan: WritePlan, before: LayerState, after: LayerState, input: LayerInput, l: nat)
  {
    PartlyUpdated(before, after, ForLayer(plan.recompute, l), input)
  }

  /** The first `k` layers are updated and the rest are as before. */
  ghost predicate UpdatedUpTo(
      plan: WritePlan, before: seq<LayerState>, after: seq<LayerState>, inputs: seq<LayerInput>, k: nat)
  {
    && |before| == |after| == |inputs| && k <= |before|
    && (forall l :: 0 <= l < k ==> LayerUpdated(plan, before[l], after[l], inputs[l], l))
    && (forall l :: k <= l < |before| ==> after[l] == before[l])
  }

  ghost predicate PartlyAll(plan: WritePlan, before: seq<LayerState>, after: seq<LayerState>, inputs: seq<LayerInput>) {
    && |before| == |after| == |inputs|
    && forall l :: 0 <= l < |before| ==> LayerPartlyUpdated(plan, before[l], after[l], inputs[l], l)
  }

  lemma UnchangedIsPartial(plan: WritePlan, s: LayerState, input: LayerInput, l: nat)
    ensures LayerPartlyUpdated(plan, s, s, input, l)
  {
  }

  lemma UpdatedIsPartial(plan: WritePlan, before: LayerState, after: LayerState, input: LayerInput, l: nat)
    requires LayerUpdated(plan, before, after, input, l)
    ensures LayerPartlyUpdated(plan, before, after, input, l)
  {
    var pieces := ForLayer(plan.recompute, l);
    TakeAll(pieces);
    ApplyIsPartial(before.keys, pieces, input.key, |pieces|);
    ApplyIsPartial(before.values, pieces, input.value, |pieces|);
  }

  /** Layers written, one layer interrupted, the rest untouched: still a partial update. */
  lemma InterruptedIsPartial(
      plan: WritePlan, before: seq<LayerState>, now: seq<LayerState>, after: LayerState, inputs: seq<LayerInput>,
      k: nat)
    requires UpdatedUpTo(plan, before, now, inputs, k) && k < |before|
    requires LayerPartlyUpdated(plan, before[k], after, inputs[k], k)
    ensures PartlyAll(plan, before, now[k := after], inputs)
  {
    forall l | 0 <= l < |before|
      ensures LayerPartlyUpdated(plan, before[l], now[k := after][l], inputs[l], l)
    {
      if l < k {
        UpdatedIsPartial(plan, before[l], now[l], inputs[l], l);
      } else if l > k {
        UnchangedIsPartial(plan, before[l], inputs[l], l);
      }
    }
  }

  lemma FinishedIsPartial(plan: WritePlan, before: seq<LayerState>, now: seq<LayerState>, inputs: seq<LayerInput>)
    requires UpdatedUpTo(plan, before, now, inputs, |before|)
    ensures PartlyAll(plan, before, now, inputs)
  {
    forall l | 0 <= l < |before|
      ensures LayerPartlyUpdated(plan, before[l], now[l], inputs[l], l)
    {
      UpdatedIsPartial(plan, before[l], now[l], inputs[l], l);
    }
  }

  // ----- one layer among many

  /** Writing one layer leaves all others alone. */
  method WriteOne(plan: WritePlan, caches: seq<Cache>, inputs: seq<LayerInput>, l: nat, fault: Fault) returns (ok: bool)
    requires Separate(caches) && l < |caches| && l < |inputs|
    requires Writable(Contents(caches[l]), ForLayer(plan.recompute, l), inputs[l])
    modifies caches[l].keys, caches[l].values
    ensures ok <==> Survives(fault, 2 * |ForLayer(plan.recompute, l)|)
    ensures States(caches) == old(States(caches))[l := Contents(caches[l])]
    ensures ok ==> LayerUpdated(plan, old(States(caches))[l], Contents(caches[l]), inputs[l], l)
    ensures !ok ==> LayerPartlyUpdated(plan, old(States(caches))[l], Contents(caches[l]), inputs[l], l)
  {
    ok := WriteLayer(caches[l], ForLayer(plan.recompute, l), inputs[l], fault);
    forall i | 0 <= i < |caches| && i != l
      ensures Contents(caches[i]) == old(Contents(caches[i]))
    {
      assert {caches[i].keys, caches[i].values} !! {caches[l].keys, caches[l].values};
    }
  }

  lemma ReadyIsWritable(plan: WritePlan, inputs: seq<LayerInput>, caches: seq<Cache>, l: nat, s: LayerState)
    requires ValidWritePlan(plan) && l < NUM_LAYERS && l < |inputs| && l < |caches|
    requires LayerReady(plan, inputs, caches, l) && Shaped(caches[l])
    requires |s.keys| == caches[l].keys.Length && |s.values| == caches[l].values.Length
    ensures Writable(s, ForLayer(plan.recompute, l), inputs[l])
  {
    PreparedFits(plan, l, inputs[l], caches[l].blocks, caches[l].blockSize);
  }

  // ----- the update

  function TotalCopies(plan: WritePlan, k: nat): nat {
    if k == 0 then 0 else TotalCopies(plan, k - 1) + 2 * |ForLayer(plan.recompute, k - 1)|
  }

  function BatchReceipt(plan: WritePlan): Receipt {
    Receipt(plan.rowPlan.RecomputeTokens(), plan.rowPlan.CachedTokens(), |plan.recompute|,
            plan.rowPlan.RecomputeTokens(), plan.rowPlan.RecomputeTokens())
  }

  /** Whether every copy and the closing synchronisation go through. */
  predicate NoFailure(plan: WritePlan, fault: Fault) {
    Survives(fault, TotalCopies(plan, NUM_LAYERS))
    && SyncOk(Remaining(fault, TotalCopies(plan, NUM_LAYERS)), TotalCopies(plan, NUM_LAYERS))
  }

  method PreflightAll(plan: WritePlan, inputs: seq<LayerInput>, caches: seq<Cache>) returns (r: UpdateResult<()>)
    requires ValidWritePlan(plan) && Separate(caches)
    ensures r.Done? <==> AllPrepared(plan, inputs, caches)
    ensures r.Failed? ==> r.error != MutationFailed
  {
    if |inputs| != NUM_LAYERS || |caches| != NUM_LAYERS {
      return Failed(TensorSetMismatch);
    }
    for l := 0 to NUM_LAYERS
      invariant forall k :: 0 <= k < l ==> LayerReady(plan, inputs, caches, k)
    {
      var one := PrepareLayer(plan, l, inputs[l], caches[l]);
      if one.Failed? {
        assert !LayerReady(plan, inputs, caches, l);
        return Failed(one.error);
      }
    }
    r := Done(());
  }

  /** No copy before every layer is checked.  On success each layer holds its planned rows;
      a refused preflight changes nothing; an interrupted run has only written planned rows. */
  method Update(
      plan: WritePlan, inputs: seq<LayerInput>, caches: seq<Cache>, fault: Fault) returns (r: UpdateResult<Receipt>)
    requires ValidWritePlan(plan) && Separate(caches)
    modifies Arrays(caches)
    ensures r.Done? <==> AllPrepared(plan, inputs, caches) && NoFailure(plan, fault)
    ensures r.Done? ==> r.value == BatchReceipt(plan)
    ensures r.Done? ==> UpdatedUpTo(plan, old(States(caches)), States(caches), inputs, NUM_LAYERS)
    ensures !AllPrepared(plan, inputs, caches) ==> States(caches) == old(States(caches))
    ensures r == Failed(MutationFailed) <==> AllPrepared(plan, inputs, caches) && !NoFailure(plan, fault)
    ensures r == Failed(MutationFailed) ==> PartlyAll(plan, old(States(caches)), States(caches), inputs)
  {
    var checked := PreflightAll(plan, inputs, caches);
    if checked.Failed? {
      return Failed(checked.error);
    }
    var ok := WriteAll(plan, inputs, caches, fault);
    if !ok {
      return Failed(MutationFailed);
    }
    FinishedIsPartial(plan, old(States(caches)), States(caches), inputs);
    if !SyncOk(Remaining(fault, TotalCopies(plan, NUM_LAYERS)), TotalCopies(plan, NUM_LAYERS)) {
      return Failed(MutationFailed);
    }
    r := Done(BatchReceipt(plan));
  }

  lemma {:induction false} CopiesGrow(plan: WritePlan, k: nat, n: nat)
    requires k <= n
    ensures TotalCopies(plan, k) <= TotalCopies(plan, n)
  {
    if k < n {
      CopiesGrow(plan, k, n - 1);
    }
  }

  method WriteAll(plan: WritePlan, inputs: seq<LayerInput>, caches: seq<Cache>, fault: Fault) returns (ok: bool)
    requires ValidWritePlan(plan) && Separate(caches) && AllPrepared(plan, inputs, caches)
    modifies Arrays(caches)
    ensures ok <==> Survives(fault, TotalCopies(plan, NUM_LAYERS))
    ensures ok ==> UpdatedUpTo(plan, old(States(caches)), States(caches), inputs, NUM_LAYERS)
    ensures !ok ==> PartlyAll(plan, old(States(caches)), States(caches), inputs)
  {
    ghost var before := States(caches);
    for l := 0 to NUM_LAYERS
      invariant UpdatedUpTo(plan, before, States(caches), inputs, l)
      invariant Survives(fault, TotalCopies(plan, l))
    {
      assert LayerReady(plan, inputs, caches, l);
      ReadyIsWritable(plan, inputs, caches, l, Contents(caches[l]));
      ghost var now := States(caches);
      CopiesGrow(plan, l + 1, NUM_LAYERS);
      ok := WriteOne(plan, caches, inputs, l, Remaining(fault, TotalCopies(plan, l)));
      if !ok {
        InterruptedIsPartial(plan, before, now, Contents(caches[l]), inputs, l);
        return;
      }
    }
    ok := true;
  }

  // ----- what an update means, position by position

  /** A layer's two components hold fresh rows exactly where the plan recomputes. */
  ghost predicate LayerRefreshed(plan: WritePlan, before: LayerState, after: LayerState, input: LayerInput, l: nat)
    requires l < |plan.rowPlan.layers|
  {
    var slots, rows := SlotsOf(ForLayer(plan.full, l)), Union(plan.rowPlan.layers[l].recompute);
    Refreshed(before.keys, after.keys, slots, rows, input.key)
      && Refreshed(before.values, after.values, slots, rows, input.value)
  }

  ghost predicate DistinctSlotsIn(plan: WritePlan, l: nat) { Distinct(SlotsOf(ForLayer(plan.full, l))) }

  /** After a successful update every recomputed position's slot holds its source row, and
      every other slot is unchanged. */
  lemma UpdatedIsRefreshed(plan: WritePlan, before: LayerState, after: LayerState, input: LayerInput, l: nat)
    requires ValidWritePlan(plan) && l < NUM_LAYERS && DistinctSlotsIn(plan, l)
    requires LayerUpdated(plan, before, after, input, l)
    ensures LayerRefreshed(plan, before, after, input, l)
  {
    PlannedConsistent(plan, l);
    PlannedRows(plan, l);
    AppliedIsRefreshed(before.keys, ForLayer(plan.recompute, l), input.key, SlotsOf(ForLayer(plan.full, l)));
    AppliedIsRefreshed(before.values, ForLayer(plan.recompute, l), input.value, SlotsOf(ForLayer(plan.full, l)));
  }

  /** However a run ended, the slot of a cached position is untouched. */
  lemma CachedSlotKept(plan: WritePlan, before: LayerState, after: LayerState, input: LayerInput, l: nat, p: nat)
    requires ValidWritePlan(plan) && l < NUM_LAYERS && DistinctSlotsIn(plan, l)
    requires LayerPartlyUpdated(plan, before, after, input, l)
    requires p < |SlotsOf(ForLayer(plan.full, l))| && p !in Union(plan.rowPlan.layers[l].recompute)
    ensures var slot := SlotsOf(ForLayer(plan.full, l))[p];
      (slot < |before.keys| ==> after.keys[slot] == before.keys[slot])
        && (slot < |before.values| ==> after.values[slot] == before.values[slot])
  {
    PlannedConsistent(plan, l);
    PlannedRows(plan, l);
    var pieces, slots := ForLayer(plan.recompute, l), SlotsOf(ForLayer(plan.full, l));
    if slots[p] < |before.keys| {
      PartialKeepsCached(before.keys, after.keys, pieces, input.key, slots, p);
    }
    if slots[p] < |before.values| {
      PartialKeepsCached(before.values, after.values, pieces, input.value, slots, p);
    }
  }
}
