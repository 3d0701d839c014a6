/** From block tables to cache contents: what one accepted update does to each prompt position. */
module EndToEnd {
  import opened Ranges
  import opened ModelTarget
  import opened HybridLayout
  import opened Scatter
  import opened RowSelection
  import opened SelectiveWrites
  import opened WritePlanning
  import opened CacheRows
  import opened KvUpdate
  import opened KvBatch
  import opened Tilings

  /** The write plan was made from this whole-prompt scatter. */
  ghost predicate PlannedFrom(scatter: ScatterPlan, layout: Layout, ordered: seq<BlockTable>, plan: WritePlan, l: nat) {
    && ValidLayout(layout) && |ordered| == NUM_CACHE_GROUPS && l < NUM_LAYERS
      && ScattersLayer(scatter, layout, ordered, l)
    && ValidWritePlan(plan) && scatter.transfer.target == Bounds(0, plan.rowPlan.promptTokens)
    && multiset(ForLayer(plan.full, l)) == multiset(ForLayer(scatter.layerSpans, l))
  }

  /** Distinct block ids in a layer's table make its slots distinct. */
  lemma PlannedSlotsDistinct(scatter: ScatterPlan, layout: Layout, ordered: seq<BlockTable>, plan: WritePlan, l: nat)
    requires PlannedFrom(scatter, layout, ordered, plan, l) && DistinctBlocks(ordered[layout.layers[l].groupId])
    ensures DistinctSlotsIn(plan, l)
  {
    AcceptedSlots(scatter, layout, ordered, plan, l);
    TableSlotsDistinct(ordered[layout.layers[l].groupId], plan.rowPlan.promptTokens);
  }

  lemma SlotIs(scatter: ScatterPlan, layout: Layout, ordered: seq<BlockTable>, plan: WritePlan, l: nat, p: nat)
    requires PlannedFrom(scatter, layout, ordered, plan, l) && p < plan.rowPlan.promptTokens
    ensures var table := ordered[layout.layers[l].groupId];
      HasSlot(table, p) && p < |SlotsOf(ForLayer(plan.full, l))|
        && SlotsOf(ForLayer(plan.full, l))[p] == SlotOf(table, p)
  {
    AcceptedSlots(scatter, layout, ordered, plan, l);
  }

  /** Position p lives in slot block_ids[p / size] * size + p % size of its layer's table.  That
      slot holds the source row if p is recomputed, and what it held before if p is cached. */
  ghost predicate PositionHolds(
      table: BlockTable, chosen: set<int>, before: LayerState, after: LayerState, input: LayerInput, p: nat)
  {
    && |after.keys| == |before.keys| && |after.values| == |before.values| && HasSlot(table, p)
    && var slot := SlotOf(table, p);
       if p in chosen then
         && slot < |after.keys| && p < |input.key| && after.keys[slot] == input.key[p]
         && slot < |after.values| && p < |input.value| && after.values[slot] == input.value[p]
       else SlotKept(before, after, slot)
  }

  ghost predicate SlotKept(before: LayerState, after: LayerState, slot: nat) {
    && (slot < |before.keys| ==> slot < |after.keys| && after.keys[slot] == before.keys[slot])
    && (slot < |before.values| ==> slot < |after.values| && after.values[slot] == before.values[slot])
  }

  /** After a successful update every position of the prompt is as it should be. */
  lemma PositionAfterUpdate(scatter: ScatterPlan, layout: Layout, ordered: seq<BlockTable>, plan: WritePlan, l: nat,
                            before: LayerState, after: LayerState, input: LayerInput, p: nat)
    requires PlannedFrom(scatter, layout, ordered, plan, l) && DistinctBlocks(ordered[layout.layers[l].groupId])
    requires LayerUpdated(plan, before, after, input, l) && p < plan.rowPlan.promptTokens
    ensures PositionHolds(ordered[layout.layers[l].groupId], Union(plan.rowPlan.layers[l].recompute), before, after,
      input, p)
  {
    PlannedSlotsDistinct(scatter, layout, ordered, plan, l);
    SlotIs(scatter, layout, ordered, plan, l, p);
    UpdatedIsRefreshed(plan, before, after, input, l);
    if p in Union(plan.rowPlan.layers[l].recompute) {
      RecomputedFits(plan, before, after, input, l, p);
    } else {
      UpdatedIsPartial(plan, before, after, input, l);
      CachedSlotKept(plan, before, after, input, l, p);
    }
  }

  lemma RecomputedFits(plan: WritePlan, before: LayerState, after: LayerState, input: LayerInput, l: nat, p: nat)
    requires ValidWritePlan(plan) && l < NUM_LAYERS && LayerUpdated(plan, before, after, input, l)
    requires p in Union(plan.rowPlan.layers[l].recompute)
    ensures var slots := SlotsOf(ForLayer(plan.full, l));
      && p < |slots| && slots[p] < |before.keys| && slots[p] < |before.values| && p < |input.key| && p < |input.value|
  {
    PlannedConsistent(plan, l);
    PlannedRows(plan, l);
    var pieces, slots := ForLayer(plan.recompute, l), SlotsOf(ForLayer(plan.full, l));
    WrittenFits(pieces, slots, |before.keys|, |input.key|, p);
    WrittenFits(pieces, slots, |before.values|, |input.value|, p);
  }

  // ----- the whole chain

  /** The block table of layer `l`, through the group that owns the layer. */
  ghost function TableOf(layout: Layout, ordered: seq<BlockTable>, l: nat): BlockTable
    requires ValidLayout(layout) && |ordered| == NUM_CACHE_GROUPS && l < NUM_LAYERS
  {
    GroupIdInRange(layout, l);
    ordered[layout.layers[l].groupId]
  }

  datatype ChainResult = TablesRefused | WritesRefused | Ended(result: UpdateResult<Receipt>)

  /** Every position of layer `l` is as it should be. */
  ghost predicate LayerHolds(
      table: BlockTable, rows: LayerRows, before: LayerState, after: LayerState, input: LayerInput)
  {
    forall p: nat :: p < rows.promptTokens ==> PositionHolds(table, Union(rows.recompute), before, after, input, p)
  }

  /** The slots of the layer's cached positions are untouched. */
  ghost predicate LayerKeeps(table: BlockTable, rows: LayerRows, before: LayerState, after: LayerState) {
    forall p: nat :: p < rows.promptTokens && p !in Union(rows.recompute) && HasSlot(table, p) ==>
      SlotKept(before, after, SlotOf(table, p))
  }

  /** Slot `s` is where some recomputed position of the layer lives. */
  ghost predicate IsTarget(table: BlockTable, rows: LayerRows, s: nat) {
    exists p: nat :: p < rows.promptTokens && p in Union(rows.recompute) && HasSlot(table, p) && SlotOf(table, p) == s
  }

  /** Every slot that is not the target of a recomputed position is untouched: cached rows, and
      blocks that are not the request's at all. */
  ghost predicate OthersKept(table: BlockTable, rows: LayerRows, before: LayerState, after: LayerState) {
    forall s: nat :: !IsTarget(table, rows, s) ==> SlotKept(before, after, s)
  }

  /** A slot that a planned write reached is the target of a recomputed position. */
  lemma WrittenIsTarget(scatter: ScatterPlan, layout: Layout, ordered: seq<BlockTable>, plan: WritePlan, l: nat,
                        source: seq<Row>, s: nat, row: Row)
    requires PlannedFrom(scatter, layout, ordered, plan, l)
    requires WrittenBy(ForLayer(plan.recompute, l), source, s, row)
    ensures IsTarget(ordered[layout.layers[l].groupId], plan.rowPlan.layers[l], s)
  {
    assert plan.rowPlan.layers[l].promptTokens == plan.rowPlan.promptTokens;
    PlannedConsistent(plan, l);
    PlannedRows(plan, l);
    var p := WriterOwns(ForLayer(plan.recompute, l), source, SlotsOf(ForLayer(plan.full, l)), s, row);
    AcceptedSlots(scatter, layout, ordered, plan, l);
    SlotIs(scatter, layout, ordered, plan, l, p);
  }

  lemma OthersAfterUpdate(scatter: ScatterPlan, layout: Layout, ordered: seq<BlockTable>, plan: WritePlan, l: nat,
                          before: LayerState, after: LayerState, input: LayerInput)
    requires PlannedFrom(scatter, layout, ordered, plan, l) && LayerPartlyUpdated(plan, before, after, input, l)
    ensures OthersKept(ordered[layout.layers[l].groupId], plan.rowPlan.layers[l], before, after)
  {
    var pieces := ForLayer(plan.recompute, l);
    forall s: nat | !IsTarget(ordered[layout.layers[l].groupId], plan.rowPlan.layers[l], s)
      ensures SlotKept(before, after, s)
    {
      if s < |after.keys| && WrittenBy(pieces, input.key, s, after.keys[s]) {
        WrittenIsTarget(scatter, layout, ordered, plan, l, input.key, s, after.keys[s]);
      }
      if s < |after.values| && WrittenBy(pieces, input.value, s, after.values[s]) {
        WrittenIsTarget(scatter, layout, ordered, plan, l, input.value, s, after.values[s]);
      }
    }
  }

  lemma LayerAfterUpdate(scatter: ScatterPlan, layout: Layout, ordered: seq<BlockTable>, plan: WritePlan, l: nat,
                         before: LayerState, after: LayerState, input: LayerInput)
    requires PlannedFrom(scatter, layout, ordered, plan, l) && DistinctBlocks(ordered[layout.layers[l].groupId])
    requires LayerUpdated(plan, before, after, input, l)
    ensures LayerHolds(ordered[layout.layers[l].groupId], plan.rowPlan.layers[l], before, after, input)
  {
    assert plan.rowPlan.layers[l].promptTokens == plan.rowPlan.promptTokens;
    forall p: nat | p < plan.rowPlan.promptTokens
      ensures PositionHolds(ordered[layout.layers[l].groupId], Union(plan.rowPlan.layers[l].recompute), before, after,
        input, p)
    {
      PositionAfterUpdate(scatter, layout, ordered, plan, l, before, after, input, p);
    }
  }

  lemma LayerAfterFault(scatter: ScatterPlan, layout: Layout, ordered: seq<BlockTable>, plan: WritePlan, l: nat,
                        before: LayerState, after: LayerState, input: LayerInput)
    requires PlannedFrom(scatter, layout, ordered, plan, l) && DistinctBlocks(ordered[layout.layers[l].groupId])
    requires LayerPartlyUpdated(plan, before, after, input, l)
    ensures LayerKeeps(ordered[layout.layers[l].groupId], plan.rowPlan.layers[l], before, after)
  {
    var table := ordered[layout.layers[l].groupId];
    assert plan.rowPlan.layers[l].promptTokens == plan.rowPlan.promptTokens;
    PlannedSlotsDistinct(scatter, layout, ordered, plan, l);
    forall p: nat | p < plan.rowPlan.promptTokens && p !in Union(plan.rowPlan.layers[l].recompute)
      ensures HasSlot(table, p) && SlotKept(before, after, SlotOf(table, p))
    {
      SlotIs(scatter, layout, ordered, plan, l, p);
      CachedSlotKept(plan, before, after, input, l, p);
    }
  }

  /** The ways an update ends. */
  ghost predicate UpdateEnded(
      plan: WritePlan, before: seq<LayerState>, after: seq<LayerState>, inputs: seq<LayerInput>)
  {
    || UpdatedUpTo(plan, before, after, inputs, NUM_LAYERS)
    || after == before
    || PartlyAll(plan, before, after, inputs)
  }

  lemma LayerEnds(scatter: ScatterPlan, layout: Layout, ordered: seq<BlockTable>, plan: WritePlan, l: nat,
                  before: seq<LayerState>, after: seq<LayerState>, inputs: seq<LayerInput>)
    requires PlannedFrom(scatter, layout, ordered, plan, l)
    requires |before| == |after| == |inputs| == NUM_LAYERS && UpdateEnded(plan, before, after, inputs)
    ensures OthersKept(ordered[layout.layers[l].groupId], plan.rowPlan.layers[l], before[l], after[l])
    ensures DistinctBlocks(ordered[layout.layers[l].groupId]) ==>
      LayerKeeps(ordered[layout.layers[l].groupId], plan.rowPlan.layers[l], before[l], after[l])
    ensures UpdatedUpTo(plan, before, after, inputs, NUM_LAYERS) ==>
      DistinctBlocks(ordered[layout.layers[l].groupId]) ==>
        LayerHolds(ordered[layout.layers[l].groupId], plan.rowPlan.layers[l], before[l], after[l], inputs[l])
  {
    if UpdatedUpTo(plan, before, after, inputs, NUM_LAYERS) {
      UpdatedIsPartial(plan, before[l], after[l], inputs[l], l);
    } else if after == before {
      UnchangedIsPartial(plan, before[l], inputs[l], l);
    }
    OthersAfterUpdate(scatter, layout, ordered, plan, l, before[l], after[l], inputs[l]);
    if DistinctBlocks(ordered[layout.layers[l].groupId]) {
      LayerAfterFault(scatter, layout, ordered, plan, l, before[l], after[l], inputs[l]);
      if UpdatedUpTo(plan, before, after, inputs, NUM_LAYERS) {
        LayerAfterUpdate(scatter, layout, ordered, plan, l, before[l], after[l], inputs[l]);
      }
    }
  }

  /** Every layer whose block ids are distinct is as it should be. */
  ghost predicate AllHold(
      layout: Layout, ordered: seq<BlockTable>, rows: RowPlan, before: seq<LayerState>, after: seq<LayerState>,
      inputs: seq<LayerInput>)
    requires ValidLayout(layout) && |ordered| == NUM_CACHE_GROUPS && |rows.layers| == NUM_LAYERS
    requires |before| == |after| == |inputs| == NUM_LAYERS
  {
    forall l :: 0 <= l < NUM_LAYERS && DistinctBlocks(TableOf(layout, ordered, l)) ==>
      LayerHolds(TableOf(layout, ordered, l), rows.layers[l], before[l], after[l], inputs[l])
  }

  /** In every layer only slots of recomputed positions have changed, and if its block ids are
      distinct the cached positions have kept their rows. */
  ghost predicate AllKeep(
      layout: Layout, ordered: seq<BlockTable>, rows: RowPlan, before: seq<LayerState>, after: seq<LayerState>)
    requires ValidLayout(layout) && |ordered| == NUM_CACHE_GROUPS && |rows.layers| == NUM_LAYERS
    requires |before| == |after| == NUM_LAYERS
  {
    && (forall l :: 0 <= l < NUM_LAYERS ==>
          OthersKept(TableOf(layout, ordered, l), rows.layers[l], before[l], after[l]))
    && forall l :: 0 <= l < NUM_LAYERS && DistinctBlocks(TableOf(layout, ordered, l)) ==>
         LayerKeeps(TableOf(layout, ordered, l), rows.layers[l], before[l], after[l])
  }

  lemma AllLayersEnd(
      scatter: ScatterPlan, layout: Layout, ordered: seq<BlockTable>, plan: WritePlan, before: seq<LayerState>,
      after: seq<LayerState>, inputs: seq<LayerInput>)
    requires ValidLayout(layout) && |ordered| == NUM_CACHE_GROUPS && |plan.rowPlan.layers| == NUM_LAYERS
    requires forall l :: 0 <= l < NUM_LAYERS ==> PlannedFrom(scatter, layout, ordered, plan, l)
    requires |before| == |after| == |inputs| == NUM_LAYERS && UpdateEnded(plan, before, after, inputs)
    ensures AllKeep(layout, ordered, plan.rowPlan, before, after)
    ensures UpdatedUpTo(plan, before, after, inputs, NUM_LAYERS) ==>
      AllHold(layout, ordered, plan.rowPlan, before, after, inputs)
  {
    forall l | 0 <= l < NUM_LAYERS
      ensures OthersKept(TableOf(layout, ordered, l), plan.rowPlan.layers[l], before[l], after[l])
      ensures DistinctBlocks(TableOf(layout, ordered, l)) ==>
        LayerKeeps(TableOf(layout, ordered, l), plan.rowPlan.layers[l], before[l], after[l])
      ensures UpdatedUpTo(plan, before, after, inputs, NUM_LAYERS) ==> DistinctBlocks(TableOf(layout, ordered, l)) ==>
        LayerHolds(TableOf(layout, ordered, l), plan.rowPlan.layers[l], before[l], after[l], inputs[l])
    {
      LayerEnds(scatter, layout, ordered, plan, l, before, after, inputs);
    }
  }

  lemma UntouchedKeeps(layout: Layout, ordered: seq<BlockTable>, rows: RowPlan, s: seq<LayerState>)
    requires ValidLayout(layout) && |ordered| == NUM_CACHE_GROUPS && |rows.layers| == NUM_LAYERS && |s| == NUM_LAYERS
    ensures AllKeep(layout, ordered, rows, s, s)
  {
  }

  /** Only a scatter of the whole prompt covers the prompt. */
  lemma CoveringScatter(scatter: ScatterPlan, layout: Layout, ordered: seq<BlockTable>, rows: RowPlan)
    requires ValidLayout(layout) && |ordered| == NUM_CACHE_GROUPS && ScattersLayer(scatter, layout, ordered, 0)
    requires scatter.transfer.target.start < scatter.transfer.target.end
    requires Plannable(scatter.layerSpans, rows)
    ensures scatter.transfer.target == Bounds(0, rows.promptTokens)
  {
    var target, targets := scatter.transfer.target, Targets(ForLayer(scatter.layerSpans, 0));
    assert CoversOnce(ByLayer(scatter.layerSpans)[0], rows.promptTokens);
    TilesMeaning(targets, target.start, target.end);
    SameInterval(target.start, target.end, 0, rows.promptTokens);
  }

  lemma SameInterval(a: int, b: int, c: int, d: int)
    requires a < b && Interval(a, b) == Interval(c, d)
    ensures a == c && b == d
  {
    assert a in Interval(c, d) && b - 1 in Interval(c, d);
    assert c in Interval(a, b) && d - 1 in Interval(a, b);
  }

  /** Block tables to write plan: possible exactly for matching tables and a scatter of the whole
      prompt, whatever rows are to be recomputed. */
  method PlanWrites(layout: Layout, tables: seq<BlockTable>, transfer: TokenTransfer, rows: RowPlan)
      returns (tablesOk: bool, r: WriteResult<WritePlan>, ghost scatter: ScatterPlan, ghost ordered: seq<BlockTable>)
    requires ValidLayout(layout) && rows.Valid()
    ensures tablesOk <==> TablesMatch(layout, tables, transfer)
    ensures r.Planned? <==> tablesOk && transfer.target == Bounds(0, rows.promptTokens)
    ensures r.Planned? ==>
      && ValidWritePlan(r.value) && r.value.rowPlan == rows && InGroupOrder(ordered, tables)
      && forall l :: 0 <= l < NUM_LAYERS ==> PlannedFrom(scatter, layout, ordered, r.value, l)
  {
    var laid;
    laid, ordered := PlanTokenScatter(layout, tables, transfer);
    scatter := ScatterPlan(transfer, [], []);
    if laid.Invalid? {
      return false, Rejected(EmptySpans), scatter, ordered;
    }
    tablesOk, scatter := true, laid.value;
    r := PlanSelectiveKvWrites(laid.value.layerSpans, rows);
    if transfer.target == Bounds(0, rows.promptTokens) {
      FullScatterIsPlannable(scatter, layout, ordered, rows);
    } else if r.Planned? {
      CoveringScatter(scatter, layout, ordered, rows);
    }
  }

  /** The chain from block tables to cache contents.  When it succeeds every layer with distinct
      block ids holds source rows at its recomputed positions and its old rows at its cached
      ones; however it ends, no slot but those of recomputed positions is touched. */
  method RefreshCaches(layout: Layout, tables: seq<BlockTable>, transfer: TokenTransfer, rows: RowPlan,
                       inputs: seq<LayerInput>, caches: seq<Cache>, fault: Fault)
      returns (r: ChainResult, ghost plan: WritePlan, ghost ordered: seq<BlockTable>)
    requires ValidLayout(layout) && rows.Valid() && Separate(caches)
    modifies Arrays(caches)
    ensures r.TablesRefused? <==> !TablesMatch(layout, tables, transfer)
    ensures r.WritesRefused? <==>
      TablesMatch(layout, tables, transfer) && transfer.target != Bounds(0, rows.promptTokens)
    ensures !r.Ended? ==> States(caches) == old(States(caches))
    ensures r.Ended? ==> InGroupOrder(ordered, tables) && plan.rowPlan == rows
    ensures r.Ended? ==> (r.result.Done? <==> AllPrepared(plan, inputs, caches) && NoFailure(plan, fault))
    ensures r.Ended? && r.result.Done? ==> r.result.value == BatchReceipt(plan)
    ensures r.Ended? && r.result.Done? ==> AllHold(layout, ordered, rows, old(States(caches)), States(caches), inputs)
    ensures r.Ended? && !AllPrepared(plan, inputs, caches) ==> States(caches) == old(States(caches))
    ensures r.Ended? && |caches| == NUM_LAYERS ==> AllKeep(layout, ordered, rows, old(States(caches)), States(caches))
  {
    var tablesOk, planned;
    ghost var scatter;
    tablesOk, planned, scatter, ordered := PlanWrites(layout, tables, transfer, rows);
    plan := WritePlan(rows, [], []);
    if planned.Rejected? {
      return if tablesOk then WritesRefused else TablesRefused, plan, ordered;
    }
    plan := planned.value;
    var result := WriteCaches(scatter, layout, ordered, planned.value, inputs, caches, fault);
    r := Ended(result);
  }

  /** The last step of the chain: the update, seen through the block tables. */
  method WriteCaches(
      ghost scatter: ScatterPlan, ghost layout: Layout, ghost ordered: seq<BlockTable>, plan: WritePlan,
      inputs: seq<LayerInput>, caches: seq<Cache>, fault: Fault) returns (r: UpdateResult<Receipt>)
    requires ValidLayout(layout) && |ordered| == NUM_CACHE_GROUPS && ValidWritePlan(plan) && Separate(caches)
    requires forall l :: 0 <= l < NUM_LAYERS ==> PlannedFrom(scatter, layout, ordered, plan, l)
    modifies Arrays(caches)
    ensures r.Done? <==> AllPrepared(plan, inputs, caches) && NoFailure(plan, fault)
    ensures r.Done? ==> r.value == BatchReceipt(plan)
    ensures r.Done? ==> AllHold(layout, ordered, plan.rowPlan, old(States(caches)), States(caches), inputs)
    ensures !AllPrepared(plan, inputs, caches) ==> States(caches) == old(States(caches))
    ensures |caches| == NUM_LAYERS ==> AllKeep(layout, ordered, plan.rowPlan, old(States(caches)), States(caches))
  {
    ghost var before := States(caches);
    r := Update(plan, inputs, caches, fault);
    if |caches| == NUM_LAYERS {
      if |inputs| == NUM_LAYERS {
        AllLayersEnd(scatter, layout, ordered, plan, before, States(caches), inputs);
      } else {
        UntouchedKeeps(layout, ordered, plan.rowPlan, before);
      }
    }
  }
}
