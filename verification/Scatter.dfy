/** Placing a token transfer into paged cache blocks, group by group and layer by layer. */
module Scatter {
  import opened Ranges
  import opened Models
  import opened ModelTarget
  import opened HybridLayout
  import opened Tilings
  import opened BlockArithmetic

  datatype TransferPair = TransferPair(source: TokenRange, target: TokenRange)

  /** What the transfer constructor accepts. */
  predicate AcceptedTransfer(t: TransferPair) {
    && Len(t.source) == Len(t.target) && Len(t.source) > 0
    && t.source.end <= MAX_CONTEXT_TOKENS && t.target.end <= MAX_CONTEXT_TOKENS
  }

  type TokenTransfer = t: TransferPair | AcceptedTransfer(t) witness TransferPair(Bounds(0, 1), Bounds(0, 1))

  function MakeTransfer(source: TokenRange, target: TokenRange): (r: LayoutResult<TransferPair>)
    ensures r.Laid? <==> AcceptedTransfer(TransferPair(source, target))
  {
    if Len(source) == 0 || Len(target) == 0 then Invalid(EmptyTransfer)
    else if Len(source) != Len(target) then Invalid(RangeLengthMismatch)
    else if source.end > MAX_CONTEXT_TOKENS || target.end > MAX_CONTEXT_TOKENS then Invalid(PositionOutOfRange)
    else Laid(TransferPair(source, target))
  }

  /** One request's block table for one group; None is a block known to be unavailable. */
  datatype Table = Table(groupId: nat, blockSize: nat, blockIds: seq<Option<nat>>)
  type BlockTable = t: Table | t.blockSize > 0 witness Table(0, 1, [])

  /** A run of the transfer inside one destination block. */
  datatype Span = Span(
    groupId: nat,
    kind: AttentionKind,
    source: TokenRange,
    target: TokenRange,
    logicalBlock: nat,
    blockId: nat,
    blockSize: nat,
    blockOffset: nat,
    slotStart: nat)

  function TargetOf(s: Span): TokenRange { s.target }

  function Targets(spans: seq<Span>): seq<TokenRange> { Map(TargetOf, spans) }

  /** The last block any position of the transfer falls into exists, and none of the touched
      blocks is missing. */
  ghost predicate BlocksAvailable(table: BlockTable, target: TokenRange)
    requires target.start < target.end
  {
    BlocksPresent(table.blockIds, target.start / table.blockSize, (target.end - 1) / table.blockSize)
  }

  ghost predicate BlocksPresent(blockIds: seq<Option<nat>>, first: nat, last: int) {
    last < |blockIds| && forall b :: first <= b <= last ==> blockIds[b].Some?
  }

  ghost predicate HasSlot(table: BlockTable, p: nat) {
    p / table.blockSize < |table.blockIds| && table.blockIds[p / table.blockSize].Some?
  }

  /** The physical slot of position `p`. */
  function SlotOf(table: BlockTable, p: nat): nat
    requires HasSlot(table, p)
  {
    table.blockIds[p / table.blockSize].value * table.blockSize + p % table.blockSize
  }

  /** Every position of the transfer has a slot. */
  lemma AvailableHasSlot(table: BlockTable, target: TokenRange, p: nat)
    requires target.start < target.end && BlocksAvailable(table, target) && target.start <= p < target.end
    ensures HasSlot(table, p)
  {
    BlockOrder(target.start, p, table.blockSize);
    BlockOrder(p, target.end - 1, table.blockSize);
  }

  ghost predicate DistinctBlocks(table: BlockTable) {
    forall i, j :: 0 <= i < j < |table.blockIds| && table.blockIds[i].Some? && table.blockIds[j].Some? ==>
      table.blockIds[i] != table.blockIds[j]
  }

  lemma SlotsApart(table: BlockTable, i: nat, a: nat, j: nat, b: nat)
    requires DistinctBlocks(table) && i < |table.blockIds| && j < |table.blockIds|
    requires table.blockIds[i].Some? && table.blockIds[j].Some? && a < table.blockSize && b < table.blockSize
    requires table.blockIds[i].value * table.blockSize + a == table.blockIds[j].value * table.blockSize + b
    ensures i == j && a == b
  {
    SlotParts(table.blockSize, table.blockIds[i].value, a, table.blockIds[j].value, b);
    assert table.blockIds[i] == table.blockIds[j];
  }

  /** Distinct block ids give distinct slots. */
  lemma DistinctSlots(table: BlockTable, p: nat, q: nat)
    requires DistinctBlocks(table) && HasSlot(table, p) && HasSlot(table, q) && SlotOf(table, p) == SlotOf(table, q)
    ensures p == q
  {
    SlotsApart(table, p / table.blockSize, p % table.blockSize, q / table.blockSize, q % table.blockSize);
    SamePosition(p, q, table.blockSize);
  }

  // ----- spans of one group

  /** Everything a span says is right: where it comes from, and where it goes. */
  ghost predicate Placed(s: Span, group: CacheGroup, table: BlockTable, transfer: TokenTransfer) {
    && s.groupId == group.groupId && s.kind == group.kind && s.blockSize == table.blockSize
    && s.target.start < s.target.end && Len(s.source) == Len(s.target)
    && s.source.start + transfer.target.start == s.target.start + transfer.source.start
    && s.logicalBlock == s.target.start / table.blockSize
    && s.logicalBlock < |table.blockIds| && table.blockIds[s.logicalBlock] == Some(s.blockId)
    && s.blockOffset == s.target.start % table.blockSize && s.blockOffset + Len(s.target) <= table.blockSize
    && s.slotStart == s.blockId * s.blockSize + s.blockOffset
  }

  /** A placed span puts every position it carries into that position's slot, and stays in
      one block. */
  lemma PlacedSlots(s: Span, group: CacheGroup, table: BlockTable, transfer: TokenTransfer, p: nat)
    requires Placed(s, group, table, transfer) && s.target.start <= p < s.target.end
    ensures HasSlot(table, p) && s.slotStart + (p - s.target.start) == SlotOf(table, p)
    ensures p / table.blockSize == s.logicalBlock
  {
    SameBlock(s.target.start, p - s.target.start, table.blockSize);
  }

  ghost predicate GroupTiling(spans: seq<Span>, group: CacheGroup, table: BlockTable, transfer: TokenTransfer) {
    && Tiles(Targets(spans), transfer.target.start, transfer.target.end)
    && (forall i :: 0 <= i < |spans| ==> Placed(spans[i], group, table, transfer))
    && (forall i :: 0 <= i < |spans| - 1 ==> spans[i + 1].logicalBlock == spans[i].logicalBlock + 1)
  }

  lemma AppendTarget(spans: seq<Span>, s: Span)
    ensures Targets(spans + [s]) == Targets(spans) + [s.target]
  {
    MapAppend(TargetOf, spans, [s]);
    MapOne(TargetOf, s);
  }

  /** The state of the scatter loop: the target is tiled up to the cursor, by blocks in order. */
  ghost predicate TiledUpTo(
      spans: seq<Span>, group: CacheGroup, table: BlockTable, transfer: TokenTransfer, cursor: nat)
  {
    && transfer.target.start <= cursor <= transfer.target.end
    && Tiles(Targets(spans), transfer.target.start, cursor)
    && (forall i :: 0 <= i < |spans| ==> Placed(spans[i], group, table, transfer))
    && (forall i :: 0 <= i < |spans| - 1 ==> spans[i + 1].logicalBlock == spans[i].logicalBlock + 1)
    && (spans != [] && cursor < transfer.target.end ==> cursor / table.blockSize == spans[|spans| - 1].logicalBlock + 1)
  }

  lemma TiledNext(spans: seq<Span>, group: CacheGroup, table: BlockTable, transfer: TokenTransfer, cursor: nat, s: Span)
    requires TiledUpTo(spans, group, table, transfer, cursor) && cursor < transfer.target.end
    requires Placed(s, group, table, transfer) && s.target.start == cursor && s.target.end <= transfer.target.end
    requires s.target.end == transfer.target.end || s.blockOffset + Len(s.target) == table.blockSize
    ensures TiledUpTo(spans + [s], group, table, transfer, s.target.end)
  {
    AppendTarget(spans, s);
    TilesAppend(Targets(spans), s.target, transfer.target.start);
    if s.target.end < transfer.target.end {
      NextBlock(cursor, Len(s.target), table.blockSize);
    }
  }

  /** The run from the cursor to the end of its block, or of the transfer. */
  method NextPiece(group: CacheGroup, table: BlockTable, transfer: TokenTransfer, cursor: nat) returns (s: Span)
    requires group.blockSize == table.blockSize && transfer.target.start <= cursor < transfer.target.end
    requires HasSlot(table, cursor)
    ensures Placed(s, group, table, transfer) && s.target.start == cursor && s.target.end <= transfer.target.end
    ensures s.target.end == transfer.target.end || s.blockOffset + Len(s.target) == table.blockSize
  {
    var size: nat := group.blockSize;
    var logicalBlock, offset := cursor / size, cursor % size;
    var left, room := transfer.target.end - cursor, size - offset;
    var count: nat := if left < room then left else room;
    var sourceStart: nat := transfer.source.start + cursor - transfer.target.start;
    assert table.blockIds[logicalBlock].Some?;
    var blockId := table.blockIds[logicalBlock].value;
    s := Span(group.groupId, group.kind, Bounds(sourceStart, sourceStart + count), Bounds(cursor, cursor + count),
              logicalBlock, blockId, size, offset, blockId * size + offset);
  }

  /** One block-sized piece at a time; every span after the first starts its block. */
  method ScatterGroup(group: CacheGroup, table: BlockTable, transfer: TokenTransfer) returns (spans: seq<Span>)
    requires group.blockSize == table.blockSize && BlocksAvailable(table, transfer.target)
    ensures GroupTiling(spans, group, table, transfer)
  {
    spans := [];
    var cursor: nat := transfer.target.start;
    while cursor < transfer.target.end
      invariant TiledUpTo(spans, group, table, transfer, cursor)
    {
      AvailableHasSlot(table, transfer.target, cursor);
      var s := NextPiece(group, table, transfer, cursor);
      TiledNext(spans, group, table, transfer, cursor, s);
      spans := spans + [s];
      cursor := s.target.end;
    }
  }

  // ----- preflight of all tables

  function GroupById(layout: Layout, id: nat): (g: CacheGroup)
    requires ValidGroups(layout.groups) && id < NUM_CACHE_GROUPS
    ensures g in layout.groups && g.groupId == id
  {
    if layout.groups[0].groupId == id then layout.groups[0] else layout.groups[1]
  }

  ghost predicate Fits(group: CacheGroup, table: BlockTable, transfer: TokenTransfer) {
    group.blockSize == table.blockSize && BlocksAvailable(table, transfer.target)
  }

  /** Exactly one table per group, and each reaches over the whole transfer. */
  ghost predicate TablesMatch(layout: Layout, tables: seq<BlockTable>, transfer: TokenTransfer)
    requires ValidGroups(layout.groups)
  {
    && OneTableEach(tables)
    && forall t :: 0 <= t < |tables| ==> Fits(GroupById(layout, tables[t].groupId), tables[t], transfer)
  }

  predicate HasTable(tables: seq<BlockTable>, id: int) {
    exists i :: 0 <= i < |tables| && tables[i].groupId == id
  }

  ghost predicate OneTableEach(tables: seq<BlockTable>) {
    && (forall i, j :: 0 <= i < j < |tables| ==> tables[i].groupId != tables[j].groupId)
    && (forall i :: 0 <= i < |tables| ==> tables[i].groupId < NUM_CACHE_GROUPS)
    && (forall id :: 0 <= id < NUM_CACHE_GROUPS ==> HasTable(tables, id))
  }

  /** The tables in group order. */
  ghost predicate InGroupOrder(ordered: seq<BlockTable>, tables: seq<BlockTable>) {
    && |ordered| == NUM_CACHE_GROUPS
    && forall id :: 0 <= id < NUM_CACHE_GROUPS ==> ordered[id] in tables && ordered[id].groupId == id
  }

  method CheckTableSet(tables: seq<BlockTable>) returns (r: LayoutResult<()>)
    ensures r.Laid? <==> OneTableEach(tables)
  {
    if exists i, j :: 0 <= i < j < |tables| && tables[i].groupId == tables[j].groupId {
      return Invalid(DuplicateBlockTable);
    }
    if exists i :: 0 <= i < |tables| && tables[i].groupId >= NUM_CACHE_GROUPS {
      return Invalid(UnexpectedBlockTable);
    }
    for id := 0 to NUM_CACHE_GROUPS
      invariant forall k :: 0 <= k < id ==> HasTable(tables, k)
    {
      if !HasTable(tables, id) {
        return Invalid(MissingBlockTable);
      }
    }
    r := Laid(());
  }

  method CheckTable(group: CacheGroup, table: BlockTable, transfer: TokenTransfer) returns (r: LayoutResult<()>)
    ensures r.Laid? <==> Fits(group, table, transfer)
  {
    if table.blockSize != group.blockSize {
      return Invalid(BlockSizeMismatch);
    }
    r := CheckBlocks(table.blockIds, transfer.target.start / group.blockSize,
      (transfer.target.end - 1) / group.blockSize);
  }

  method CheckBlocks(blockIds: seq<Option<nat>>, first: nat, last: int) returns (r: LayoutResult<()>)
    ensures r.Laid? <==> BlocksPresent(blockIds, first, last)
  {
    if last >= |blockIds| {
      return Invalid(BlockTableTooShort);
    }
    if exists b: nat :: first <= b <= last && blockIds[b].None? {
      return Invalid(BlockUnavailable);
    }
    r := Laid(());
  }

  /** Accepts exactly the usable table sets, before any span is built. */
  method ValidatedTables(
      layout: Layout, tables: seq<BlockTable>, transfer: TokenTransfer) returns (r: LayoutResult<seq<BlockTable>>)
    requires ValidGroups(layout.groups)
    ensures r.Laid? <==> TablesMatch(layout, tables, transfer)
    ensures r.Laid? ==> InGroupOrder(r.value, tables)
  {
    var setOk := CheckTableSet(tables);
    if setOk.Invalid? {
      return Invalid(setOk.error);
    }
    var ordered: seq<BlockTable> := [];
    for id := 0 to NUM_CACHE_GROUPS
      invariant |ordered| == id
      invariant forall k :: 0 <= k < id ==> ordered[k] in tables && ordered[k].groupId == k
      invariant forall t :: 0 <= t < |tables| && tables[t].groupId < id ==>
        Fits(GroupById(layout, tables[t].groupId), tables[t], transfer)
    {
      assert HasTable(tables, id);
      var t :| 0 <= t < |tables| && tables[t].groupId == id;
      var one := CheckTable(GroupById(layout, id), tables[t], transfer);
      if one.Invalid? {
        return Invalid(one.error);
      }
      ordered := ordered + [tables[t]];
    }
    r := Laid(ordered);
  }

  // ----- all groups and layers

  /** A group's span, written by one layer. */
  datatype LayerSpan = LayerSpan(layerIndex: nat, span: Span)

  function Assigned(layer: nat, spans: seq<Span>): (r: seq<LayerSpan>)
    ensures |r| == |spans|
  {
    seq(|spans|, i requires 0 <= i < |spans| => LayerSpan(layer, spans[i]))
  }

  /** The spans of one layer, in order. */
  function ForLayer(spans: seq<LayerSpan>, layer: nat): seq<Span> {
    if spans == [] then []
    else
      var last := spans[|spans| - 1];
      ForLayer(spans[..|spans| - 1], layer) + (if last.layerIndex == layer then [last.span] else [])
  }

  lemma {:induction false} ForLayerAppend(a: seq<LayerSpan>, b: seq<LayerSpan>, layer: nat)
    ensures ForLayer(a + b, layer) == ForLayer(a, layer) + ForLayer(b, layer)
  {
    if b == [] {
      assert a + b == a;
    } else {
      ForLayerAppend(a, b[..|b| - 1], layer);
      assert (a + b)[..|a + b| - 1] == a + b[..|b| - 1];
    }
  }

  lemma {:induction false} ForLayerAssigned(owner: nat, spans: seq<Span>, layer: nat)
    ensures ForLayer(Assigned(owner, spans), layer) == if owner == layer then spans else []
  {
    if spans != [] {
      ForLayerAssigned(owner, spans[..|spans| - 1], layer);
      assert Assigned(owner, spans)[..|spans| - 1] == Assigned(owner, spans[..|spans| - 1]);
      assert spans == spans[..|spans| - 1] + [spans[|spans| - 1]];
    }
  }

  /** Every layer in order, with the spans of its group. */
  function LayerSpans(layers: seq<LayerLayout>, byGroup: seq<seq<Span>>): seq<LayerSpan>
    requires forall i :: 0 <= i < |layers| ==> layers[i].groupId < |byGroup|
  {
    if layers == [] then []
    else
      var last := layers[|layers| - 1];
      LayerSpans(layers[..|layers| - 1], byGroup) + Assigned(last.layerIndex, byGroup[last.groupId])
  }

  lemma {:induction false} LayerSpansFor(layers: seq<LayerLayout>, byGroup: seq<seq<Span>>, layer: nat)
    requires forall i :: 0 <= i < |layers| ==> layers[i].groupId < |byGroup| && layers[i].layerIndex == i
    ensures ForLayer(LayerSpans(layers, byGroup), layer) == if layer < |layers| then byGroup[layers[layer].groupId]
      else []
  {
    if layers != [] {
      var front, last := layers[..|layers| - 1], layers[|layers| - 1];
      LayerSpansFor(front, byGroup, layer);
      ForLayerAppend(LayerSpans(front, byGroup), Assigned(last.layerIndex, byGroup[last.groupId]), layer);
      ForLayerAssigned(last.layerIndex, byGroup[last.groupId], layer);
    }
  }

  lemma {:induction false} LayerSpansOwned(layers: seq<LayerLayout>, byGroup: seq<seq<Span>>, bound: nat)
    requires forall i :: 0 <= i < |layers| ==> layers[i].groupId < |byGroup| && layers[i].layerIndex < bound
    ensures forall s :: s in LayerSpans(layers, byGroup) ==> s.layerIndex < bound
  {
    if layers != [] {
      LayerSpansOwned(layers[..|layers| - 1], byGroup, bound);
    }
  }

  datatype ScatterPlan = ScatterPlan(transfer: TokenTransfer, byGroup: seq<seq<Span>>, layerSpans: seq<LayerSpan>)

  /** Layer `l` writes exactly a tiling of the target through its own group's table. */
  ghost predicate ScattersLayer(plan: ScatterPlan, layout: Layout, ordered: seq<BlockTable>, l: nat)
    requires ValidLayout(layout) && |ordered| == NUM_CACHE_GROUPS && l < NUM_LAYERS
  {
    var id := layout.layers[l].groupId;
    id < NUM_CACHE_GROUPS
      && GroupTiling(ForLayer(plan.layerSpans, l), GroupById(layout, id), ordered[id], plan.transfer)
  }

  lemma GroupIdInRange(layout: Layout, l: nat)
    requires ValidLayout(layout) && l < NUM_LAYERS
    ensures layout.layers[l].groupId < NUM_CACHE_GROUPS
  {
    assert LayerFits(layout, l);
    assert layout.groups[0].groupId in {0, 1} && layout.groups[1].groupId in {0, 1};
  }

  /** The tables are accepted exactly when they match; then every layer's spans tile the
      target through its own group. */
  method PlanTokenScatter(layout: Layout, tables: seq<BlockTable>, transfer: TokenTransfer)
      returns (r: LayoutResult<ScatterPlan>, ghost ordered: seq<BlockTable>)
    requires ValidLayout(layout)
    ensures r.Laid? <==> TablesMatch(layout, tables, transfer)
    ensures r.Laid? ==>
      && InGroupOrder(ordered, tables) && r.value.transfer == transfer
      && (forall s :: s in r.value.layerSpans ==> s.layerIndex < NUM_LAYERS)
      && forall l :: 0 <= l < NUM_LAYERS ==> ScattersLayer(r.value, layout, ordered, l)
  {
    var valid := ValidatedTables(layout, tables, transfer);
    ordered := [];
    if valid.Invalid? {
      return Invalid(valid.error), ordered;
    }
    ordered := valid.value;
    var byGroup: seq<seq<Span>> := [];
    for id := 0 to NUM_CACHE_GROUPS
      invariant |byGroup| == id
      invariant forall k :: 0 <= k < id ==> GroupTiling(byGroup[k], GroupById(layout, k), ordered[k], transfer)
    {
      assert ordered[id] in tables;
      var spans := ScatterGroup(GroupById(layout, id), valid.value[id], transfer);
      byGroup := byGroup + [spans];
    }
    forall l | 0 <= l < NUM_LAYERS
      ensures layout.layers[l].groupId < NUM_CACHE_GROUPS && layout.layers[l].layerIndex == l
    {
      GroupIdInRange(layout, l);
      assert LayerFits(layout, l);
    }
    LayerSpansOwned(layout.layers, byGroup, NUM_LAYERS);
    var plan := ScatterPlan(transfer, byGroup, LayerSpans(layout.layers, byGroup));
    forall l | 0 <= l < NUM_LAYERS
      ensures ScattersLayer(plan, layout, ordered, l)
    {
      LayerSpansFor(layout.layers, byGroup, l);
    }
    r := Laid(plan);
  }

  // ----- slots of a full-prompt scatter

  /** The slot of every position, in order. */
  function SlotsOf(spans: seq<Span>): seq<nat> {
    if spans == [] then []
    else
      var last := spans[|spans| - 1];
      SlotsOf(spans[..|spans| - 1]) + RunOfSlots(last.slotStart, Len(last.target))
  }

  ghost function TableSlots(table: BlockTable, lo: nat, hi: nat): (s: seq<nat>)
    requires lo <= hi && SlotsIn(table, lo, hi)
    ensures |s| == hi - lo
  {
    seq<nat>(hi - lo, k requires 0 <= k < hi - lo => SlotOf(table, lo + k))
  }

  ghost predicate SlotsIn(table: BlockTable, lo: nat, hi: nat) {
    forall p :: lo <= p < hi ==> HasSlot(table, p)
  }

  lemma TableSlotsJoin(table: BlockTable, lo: nat, mid: nat, hi: nat)
    requires lo <= mid <= hi && SlotsIn(table, lo, mid) && SlotsIn(table, mid, hi)
    ensures SlotsIn(table, lo, hi)
    ensures TableSlots(table, lo, mid) + TableSlots(table, mid, hi) == TableSlots(table, lo, hi)
  {
  }

  /** `count` slots in a row. */
  function RunOfSlots(start: nat, count: nat): (r: seq<nat>)
    ensures |r| == count
  {
    seq<nat>(count, k => start + k)
  }

  lemma SpanSlots(span: Span, group: CacheGroup, table: BlockTable, transfer: TokenTransfer)
    requires Placed(span, group, table, transfer)
    ensures SlotsIn(table, span.target.start, span.target.end)
    ensures RunOfSlots(span.slotStart, Len(span.target)) == TableSlots(table, span.target.start, span.target.end)
  {
    var lo, hi := span.target.start, span.target.end;
    forall p | lo <= p < hi
      ensures HasSlot(table, p) && span.slotStart + (p - lo) == SlotOf(table, p)
    {
      PlacedSlots(span, group, table, transfer, p);
    }
  }

  ghost predicate AllPlaced(spans: seq<Span>, group: CacheGroup, table: BlockTable, transfer: TokenTransfer) {
    forall i :: 0 <= i < |spans| ==> Placed(spans[i], group, table, transfer)
  }

  /** Spans that tile a stretch list exactly the slots the block table gives it. */
  lemma {:induction false} TilingSlots(
      spans: seq<Span>, group: CacheGroup, table: BlockTable, transfer: TokenTransfer, lo: nat, hi: nat)
    requires Tiles(Targets(spans), lo, hi) && AllPlaced(spans, group, table, transfer)
    ensures lo <= hi && SlotsIn(table, lo, hi)
    ensures SlotsOf(spans) == TableSlots(table, lo, hi)
  {
    if spans != [] {
      var front, last := spans[..|spans| - 1], spans[|spans| - 1];
      FrontTargets(spans);
      TilingSlots(front, group, table, transfer, lo, last.target.start);
      SpanSlots(last, group, table, transfer);
      TableSlotsJoin(table, lo, last.target.start, hi);
    }
  }

  lemma FrontTargets(spans: seq<Span>)
    requires spans != []
    ensures Targets(spans)[..|spans| - 1] == Targets(spans[..|spans| - 1])
    ensures Targets(spans)[|spans| - 1] == spans[|spans| - 1].target
  {
    var last := spans[|spans| - 1];
    assert spans == spans[..|spans| - 1] + [last];
    AppendTarget(spans[..|spans| - 1], last);
  }
}
