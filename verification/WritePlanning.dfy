/** The complete write plan over all layers, and the runtime slot vector it must match. */
module WritePlanning {
  import opened Order
  import opened Ranges
  import opened ModelTarget
  import opened Tilings
  import opened HybridLayout
  import opened Scatter
  import opened RowSelection
  import opened SelectiveWrites

  ghost predicate AllValid(spans: seq<LayerSpan>, promptTokens: nat) {
    forall i :: 0 <= i < |spans| ==> ValidSpan(spans[i], promptTokens)
  }

  ghost predicate AllBlocksValid(spans: seq<Span>) {
    forall i :: 0 <= i < |spans| ==> ValidBlock(spans[i])
  }

  /** For layer `l`: the full spans tile the prompt, and the writes are exactly their
      intersection with the rows to recompute. */
  ghost predicate LayerPlanned(plan: WritePlan, l: nat)
    requires l < |plan.rowPlan.layers|
  {
    && Tiles(Targets(ForLayer(plan.full, l)), 0, plan.rowPlan.promptTokens)
    && AllBlocksValid(ForLayer(plan.full, l))
    && ForLayer(plan.recompute, l) == AllPieces(ForLayer(plan.full, l), plan.rowPlan.layers[l].recompute)
  }

  function WriteCount(plan: WritePlan, k: nat): nat {
    if k == 0 then 0 else WriteCount(plan, k - 1) + |ForLayer(plan.recompute, k - 1)|
  }

  ghost predicate ValidWritePlan(plan: WritePlan) {
    && plan.rowPlan.Valid()
    && (forall l :: 0 <= l < NUM_LAYERS ==> LayerPlanned(plan, l))
    && WriteCount(plan, NUM_LAYERS) == |plan.recompute|
  }

  // ----- collecting the layers

  /** Per-layer lists, tagged and concatenated in layer order. */
  function Layered(perLayer: seq<seq<Span>>): seq<LayerSpan> {
    if perLayer == [] then []
    else Layered(perLayer[..|perLayer| - 1]) + Assigned(|perLayer| - 1, perLayer[|perLayer| - 1])
  }

  lemma LayeredNext(perLayer: seq<seq<Span>>, spans: seq<Span>)
    ensures Layered(perLayer + [spans]) == Layered(perLayer) + Assigned(|perLayer|, spans)
  {
    assert (perLayer + [spans])[..|perLayer|] == perLayer;
  }

  lemma {:induction false} LayeredFor(perLayer: seq<seq<Span>>, l: nat)
    ensures ForLayer(Layered(perLayer), l) == if l < |perLayer| then perLayer[l] else []
  {
    if perLayer != [] {
      var k := |perLayer| - 1;
      LayeredFor(perLayer[..k], l);
      ForLayerAppend(Layered(perLayer[..k]), Assigned(k, perLayer[k]), l);
      ForLayerAssigned(k, perLayer[k], l);
    }
  }

  lemma LayeredLength(perLayer: seq<seq<Span>>, k: nat)
    requires k < |perLayer|
    ensures |Layered(perLayer[..k + 1])| == |Layered(perLayer[..k])| + |ForLayer(Layered(perLayer), k)|
  {
    LayeredFor(perLayer, k);
    TakeNext(perLayer, k);
    LayeredNext(perLayer[..k], perLayer[k]);
  }

  lemma {:induction false} LayeredCount(plan: WritePlan, perLayer: seq<seq<Span>>, k: nat)
    requires plan.recompute == Layered(perLayer) && k <= |perLayer|
    ensures WriteCount(plan, k) == |Layered(perLayer[..k])|
  {
    if k > 0 {
      LayeredCount(plan, perLayer, k - 1);
      LayeredLength(perLayer, k - 1);
    }
  }

  lemma {:induction false} LayerValid(spans: seq<LayerSpan>, promptTokens: nat, l: nat)
    requires AllValid(spans, promptTokens)
    ensures AllBlocksValid(ForLayer(spans, l)) && AllNonEmpty(ForLayer(spans, l))
  {
    if spans != [] {
      LayerValid(spans[..|spans| - 1], promptTokens, l);
      assert ValidSpan(spans[|spans| - 1], promptTokens);
    }
  }

  lemma ReorderedBlocksValid(spans: seq<Span>, sorted: seq<Span>)
    requires AllBlocksValid(spans) && multiset(sorted) == multiset(spans)
    ensures AllBlocksValid(sorted)
  {
    forall i | 0 <= i < |sorted|
      ensures ValidBlock(sorted[i])
    {
      assert sorted[i] in multiset(spans);
    }
  }

  method CheckSpans(spans: seq<LayerSpan>, promptTokens: nat) returns (r: WriteResult<()>)
    ensures r.Planned? <==> AllValid(spans, promptTokens)
  {
    for k := 0 to |spans|
      invariant forall i :: 0 <= i < k ==> ValidSpan(spans[i], promptTokens)
    {
      var one := ValidateSpan(spans[k], promptTokens);
      if one.Rejected? {
        return Rejected(one.error);
      }
    }
    r := Planned(());
  }

  /** A plan exists exactly when every span is sound and every layer covers each prompt row
      once. */
  ghost predicate Plannable(spans: seq<LayerSpan>, rows: RowPlan) {
    spans != [] && AllValid(spans, rows.promptTokens) && AllCovered(ByLayer(spans), rows.promptTokens)
  }

  /** What the planner has built for one layer: the layer's spans in order, and their pieces. */
  ghost predicate LayerBuilt(mine: seq<Span>, sorted: seq<Span>, pieces: seq<Span>, rows: LayerRows) {
    && multiset(sorted) == multiset(mine) && Tiles(Targets(sorted), 0, rows.promptTokens)
    && pieces == AllPieces(sorted, rows.recompute)
  }

  ghost predicate LayersBuilt(byLayer: seq<seq<Span>>, sorted: seq<seq<Span>>, pieces: seq<seq<Span>>, rows: RowPlan) {
    && |sorted| == |pieces| <= |byLayer| == |rows.layers|
    && forall l :: 0 <= l < |sorted| ==> LayerBuilt(byLayer[l], sorted[l], pieces[l], rows.layers[l])
  }

  lemma PlannedLayer(byLayer: seq<seq<Span>>, sorted: seq<seq<Span>>, pieces: seq<seq<Span>>, rows: RowPlan, l: nat)
    requires rows.Valid() && LayersBuilt(byLayer, sorted, pieces, rows) && l < |sorted| && AllBlocksValid(byLayer[l])
    ensures LayerPlanned(WritePlan(rows, Layered(sorted), Layered(pieces)), l)
    ensures multiset(ForLayer(Layered(sorted), l)) == multiset(byLayer[l])
  {
    assert LayerBuilt(byLayer[l], sorted[l], pieces[l], rows.layers[l]);
    LayeredFor(sorted, l);
    LayeredFor(pieces, l);
    ReorderedBlocksValid(byLayer[l], sorted[l]);
  }

  lemma PlanIsValid(byLayer: seq<seq<Span>>, sorted: seq<seq<Span>>, pieces: seq<seq<Span>>, rows: RowPlan)
    requires rows.Valid() && LayersBuilt(byLayer, sorted, pieces, rows) && |sorted| == NUM_LAYERS
    requires forall l :: 0 <= l < |byLayer| ==> AllBlocksValid(byLayer[l])
    ensures ValidWritePlan(WritePlan(rows, Layered(sorted), Layered(pieces)))
    ensures forall l :: 0 <= l < NUM_LAYERS ==> multiset(ForLayer(Layered(sorted), l)) == multiset(byLayer[l])
  {
    var plan := WritePlan(rows, Layered(sorted), Layered(pieces));
    forall l | 0 <= l < NUM_LAYERS
      ensures LayerPlanned(plan, l)
      ensures multiset(ForLayer(plan.full, l)) == multiset(byLayer[l])
    {
      PlannedLayer(byLayer, sorted, pieces, rows, l);
    }
    LayeredCount(plan, pieces, NUM_LAYERS);
    TakeAll(pieces);
  }

  lemma EmptyLayerUncovered(spans: seq<LayerSpan>, promptTokens: nat, l: nat)
    requires spans != [] && AllValid(spans, promptTokens) && l < NUM_LAYERS && ByLayer(spans)[l] == []
    ensures !AllCovered(ByLayer(spans), promptTokens)
  {
    assert ValidSpan(spans[0], promptTokens);
    assert Targets([]) == [];
  }

  /** The spans grouped by layer. */
  function ByLayer(spans: seq<LayerSpan>): (r: seq<seq<Span>>)
    ensures |r| == NUM_LAYERS
  {
    seq(NUM_LAYERS, l requires 0 <= l < NUM_LAYERS => ForLayer(spans, l))
  }

  ghost predicate AllCovered(byLayer: seq<seq<Span>>, promptTokens: nat) {
    forall l :: 0 <= l < |byLayer| ==> CoversOnce(byLayer[l], promptTokens)
  }

  lemma CoveredNext(byLayer: seq<seq<Span>>, promptTokens: nat, l: nat)
    requires l < |byLayer| && AllCovered(byLayer[..l], promptTokens)
    ensures AllCovered(byLayer[..l + 1], promptTokens) <==> CoversOnce(byLayer[l], promptTokens)
    ensures AllCovered(byLayer, promptTokens) ==> CoversOnce(byLayer[l], promptTokens)
  {
    var now := byLayer[..l + 1];
    assert now[l] == byLayer[l];
    forall k | 0 <= k < |now| && (k < l || CoversOnce(byLayer[l], promptTokens))
      ensures CoversOnce(now[k], promptTokens)
    {
      if k < l {
        assert now[k] == byLayer[..l][k];
      }
    }
  }

  lemma BuiltNext(
      byLayer: seq<seq<Span>>, sorted: seq<seq<Span>>, pieces: seq<seq<Span>>, rows: RowPlan, mine: seq<Span>,
      split: seq<Span>)
    requires LayersBuilt(byLayer, sorted, pieces, rows) && |sorted| < |byLayer|
    requires LayerBuilt(byLayer[|sorted|], mine, split, rows.layers[|sorted|])
    ensures LayersBuilt(byLayer, sorted + [mine], pieces + [split], rows)
  {
  }

  /** Layer by layer: check the coverage, then cut the spans by the rows to recompute. */
  method CollectLayers(byLayer: seq<seq<Span>>, rows: RowPlan)
      returns (r: WriteResult<WritePlan>, ghost sorted: seq<seq<Span>>, ghost pieces: seq<seq<Span>>)
    requires rows.Valid() && |byLayer| == NUM_LAYERS
    requires forall l :: 0 <= l < |byLayer| ==> AllNonEmpty(byLayer[l])
    ensures r.Planned? <==> AllCovered(byLayer, rows.promptTokens)
    ensures r.Planned? ==>
      && LayersBuilt(byLayer, sorted, pieces, rows) && |sorted| == NUM_LAYERS
      && r.value == WritePlan(rows, Layered(sorted), Layered(pieces))
  {
    var full: seq<LayerSpan>, recompute: seq<LayerSpan> := [], [];
    sorted, pieces := [], [];
    for l := 0 to NUM_LAYERS
      invariant |sorted| == l && LayersBuilt(byLayer, sorted, pieces, rows)
      invariant full == Layered(sorted) && recompute == Layered(pieces)
      invariant AllCovered(byLayer[..l], rows.promptTokens)
    {
      var ordered := ValidateLayerCoverage(byLayer[l], rows.promptTokens);
      CoveredNext(byLayer, rows.promptTokens, l);
      if ordered.Rejected? {
        return Rejected(ordered.error), sorted, pieces;
      }
      var split := SplitAll(ordered.value, rows.layers[l].recompute);
      BuiltNext(byLayer, sorted, pieces, rows, ordered.value, split);
      LayeredNext(sorted, ordered.value);
      LayeredNext(pieces, split);
      full, recompute := full + Assigned(l, ordered.value), recompute + Assigned(l, split);
      sorted, pieces := sorted + [ordered.value], pieces + [split];
    }
    TakeAll(byLayer);
    r := Planned(WritePlan(rows, full, recompute));
  }

  lemma ByLayerValid(spans: seq<LayerSpan>, promptTokens: nat, l: nat)
    requires AllValid(spans, promptTokens) && l < NUM_LAYERS
    ensures AllBlocksValid(ByLayer(spans)[l]) && AllNonEmpty(ByLayer(spans)[l])
  {
    LayerValid(spans, promptTokens, l);
  }

  method PlanSelectiveKvWrites(spans: seq<LayerSpan>, rows: RowPlan) returns (r: WriteResult<WritePlan>)
    requires rows.Valid()
    ensures r.Planned? <==> Plannable(spans, rows)
    ensures r.Planned? ==> ValidWritePlan(r.value) && r.value.rowPlan == rows
    ensures r.Planned? ==> forall l :: 0 <= l < NUM_LAYERS ==>
      multiset(ForLayer(r.value.full, l)) == multiset(ByLayer(spans)[l])
  {
    if spans == [] {
      return Rejected(EmptySpans);
    }
    var each := CheckSpans(spans, rows.promptTokens);
    if each.Rejected? {
      return Rejected(each.error);
    }
    var byLayer := ByLayer(spans);
    if l: nat :| l < NUM_LAYERS && byLayer[l] == [] {
      EmptyLayerUncovered(spans, rows.promptTokens, l);
      return Rejected(LayerSetMismatch);
    }
    forall l | 0 <= l < NUM_LAYERS
      ensures AllBlocksValid(byLayer[l]) && AllNonEmpty(byLayer[l])
    {
      ByLayerValid(spans, rows.promptTokens, l);
    }
    ghost var sorted, pieces;
    r, sorted, pieces := CollectLayers(byLayer, rows);
    if r.Planned? {
      PlanIsValid(byLayer, sorted, pieces, rows);
    }
  }

  // ----- a full-prompt scatter is always plannable

  lemma {:induction false} TilingUnchanged(spans: seq<Span>, lo: int, hi: int)
    requires Tiles(Targets(spans), lo, hi)
    ensures SortBy(ByStart, spans) == spans && AllNonEmpty(spans)
  {
    TilesMeaning(Targets(spans), lo, hi);
    forall i | 0 <= i < |spans|
      ensures Targets(spans)[i] == spans[i].target
    {
      assert Targets(spans)[i] == TargetOf(spans[i]);
    }
    forall i, j | 0 <= i < j < |spans|
      ensures ByStart(spans[i], spans[j])
    {
      assert Targets(spans)[i].start < Targets(spans)[i].end <= Targets(spans)[j].start;
    }
    SortIdentity(ByStart, spans);
  }

  /** Everything the planner emits for a whole prompt is accepted, whatever rows are chosen. */
  lemma FullScatterIsPlannable(plan: ScatterPlan, layout: Layout, ordered: seq<BlockTable>, rows: RowPlan)
    requires ValidLayout(layout) && rows.Valid() && |ordered| == NUM_CACHE_GROUPS
    requires forall l :: 0 <= l < NUM_LAYERS ==> ScattersLayer(plan, layout, ordered, l)
    requires plan.transfer.target == Bounds(0, rows.promptTokens)
    requires forall s :: s in plan.layerSpans ==> s.layerIndex < NUM_LAYERS
    ensures Plannable(plan.layerSpans, rows)
  {
    var spans := plan.layerSpans;
    forall i | 0 <= i < |spans|
      ensures ValidSpan(spans[i], rows.promptTokens)
    {
      ScatteredSpanValid(plan, layout, ordered, rows.promptTokens, i);
    }
    forall l | 0 <= l < NUM_LAYERS
      ensures CoversOnce(ForLayer(spans, l), rows.promptTokens)
    {
      assert ScattersLayer(plan, layout, ordered, l);
      TilingUnchanged(ForLayer(spans, l), 0, rows.promptTokens);
      CoverageIsTiling(ForLayer(spans, l), rows.promptTokens);
    }
    assert CoversOnce(ForLayer(spans, 0), rows.promptTokens);
    assert Targets([]) == [];
    assert forall l :: 0 <= l < NUM_LAYERS ==> ByLayer(spans)[l] == ForLayer(spans, l);
  }

  lemma {:induction false} ForLayerHas(spans: seq<LayerSpan>, i: nat)
    requires i < |spans|
    ensures spans[i].span in ForLayer(spans, spans[i].layerIndex)
  {
    if i < |spans| - 1 {
      ForLayerHas(spans[..|spans| - 1], i);
    }
  }

  lemma ScatteredSpanValid(plan: ScatterPlan, layout: Layout, ordered: seq<BlockTable>, promptTokens: nat, i: nat)
    requires ValidLayout(layout) && |ordered| == NUM_CACHE_GROUPS && i < |plan.layerSpans|
    requires plan.layerSpans[i].layerIndex < NUM_LAYERS
    requires ScattersLayer(plan, layout, ordered, plan.layerSpans[i].layerIndex)
    requires plan.transfer.target == Bounds(0, promptTokens)
    ensures ValidSpan(plan.layerSpans[i], promptTokens)
  {
    var l, s := plan.layerSpans[i].layerIndex, plan.layerSpans[i].span;
    ForLayerHas(plan.layerSpans, i);
    var mine := ForLayer(plan.layerSpans, l);
    var k :| 0 <= k < |mine| && mine[k] == s;
    var id := layout.layers[l].groupId;
    assert Placed(s, GroupById(layout, id), ordered[id], plan.transfer);
    LayerKind(layout, l);
    TilesMeaning(Targets(mine), 0, promptTokens);
    assert Targets(mine)[k] == TargetOf(s);
  }

  lemma LayerKind(layout: Layout, l: nat)
    requires ValidLayout(layout) && l < NUM_LAYERS && layout.layers[l].groupId < NUM_CACHE_GROUPS
    ensures GroupById(layout, layout.layers[l].groupId).kind == KindOf(l)
  {
    assert LayerFits(layout, l);
    var g :| 0 <= g < |layout.groups| && layout.groups[g].groupId == layout.layers[l].groupId
      && l in layout.groups[g].layers;
    assert ListsItsKind(layout.groups[g]);
  }

  // ----- the runtime slot vector

  lemma {:induction false} SlotCount(spans: seq<Span>)
    ensures |SlotsOf(spans)| == TokenSum(Targets(spans))
  {
    if spans != [] {
      SlotCount(spans[..|spans| - 1]);
      FrontTargets(spans);
    }
  }

  /** The slots of a span's positions before `end`. */
  ghost function RunMap(s: Span, end: int): (m: map<int, nat>)
    ensures m.Keys == Interval(s.target.start, end)
  {
    map p: int | s.target.start <= p < end && InBounds(s.target.start, end, p) :: s.slotStart + (p - s.target.start)
  }

  /** The slot of every position some span covers; a later span overwrites an earlier one. */
  ghost function SlotMap(spans: seq<Span>): map<int, nat> {
    if spans == [] then map[]
    else
      var last := spans[|spans| - 1];
      SlotMap(spans[..|spans| - 1]) + RunMap(last, last.target.end)
  }

  lemma SlotMapNext(spans: seq<Span>, s: Span)
    ensures SlotMap(spans + [s]) == SlotMap(spans) + RunMap(s, s.target.end)
  {
    assert (spans + [s])[..|spans|] == spans;
  }

  /** Writes one span's slots into the position map. */
  method RecordSpan(expected: map<int, nat>, s: Span) returns (after: map<int, nat>)
    ensures after == expected + RunMap(s, s.target.end)
  {
    after := expected;
    assert expected + RunMap(s, s.target.start) == expected;
    for offset := 0 to Len(s.target)
      invariant after == expected + RunMap(s, s.target.start + offset)
    {
      var p := s.target.start + offset;
      assert RunMap(s, p + 1) == RunMap(s, p)[p := s.slotStart + offset];
      after := after[s.target.start + offset := s.slotStart + offset];
    }
  }

  /** For a tiling the map lists the slots of the positions in order. */
  lemma {:induction false} SlotMapOfTiling(spans: seq<Span>, n: nat)
    requires Tiles(Targets(spans), 0, n)
    ensures |SlotsOf(spans)| == n && SlotMap(spans).Keys == Interval(0, n)
    ensures forall p :: 0 <= p < n ==> SlotMap(spans)[p] == SlotsOf(spans)[p]
  {
    if spans != [] {
      var front, last := spans[..|spans| - 1], spans[|spans| - 1];
      FrontTargets(spans);
      SlotMapOfTiling(front, last.target.start);
    }
  }

  lemma ForLayerTake(spans: seq<LayerSpan>, k: nat, l: nat)
    requires k < |spans|
    ensures ForLayer(spans[..k + 1], l) == ForLayer(spans[..k], l)
      + (if spans[k].layerIndex == l then [spans[k].span] else [])
  {
    assert spans[..k + 1][..k] == spans[..k];
  }

  method ExpectedSlots(spans: seq<LayerSpan>, l: nat) returns (expected: map<int, nat>)
    ensures expected == SlotMap(ForLayer(spans, l))
  {
    expected := map[];
    for k := 0 to |spans|
      invariant expected == SlotMap(ForLayer(spans[..k], l))
    {
      ForLayerTake(spans, k, l);
      if spans[k].layerIndex == l {
        SlotMapNext(ForLayer(spans[..k], l), spans[k].span);
        expected := RecordSpan(expected, spans[k].span);
      } else {
        assert ForLayer(spans[..k + 1], l) == ForLayer(spans[..k], l);
      }
    }
    TakeAll(spans);
  }

  /** The slot vector a layer must be called with. */
  ghost predicate MatchesPlan(plan: WritePlan, l: nat, mapping: seq<int>) {
    var slots := SlotsOf(ForLayer(plan.full, l));
    |mapping| == |slots| && forall p :: 0 <= p < |mapping| ==> mapping[p] == slots[p]
  }

  /** The vector lists exactly the slots of the positions 0 to `n`, and nothing else is mapped. */
  ghost predicate ListsSlots(expected: map<int, nat>, n: nat, mapping: seq<int>) {
    |mapping| == n && expected.Keys == Interval(0, n) && AgreesTo(expected, mapping, n)
  }

  ghost predicate AgreesTo(expected: map<int, nat>, mapping: seq<int>, k: nat)
    requires k <= |mapping|
  {
    forall p :: 0 <= p < k ==> p in expected && mapping[p] == expected[p]
  }

  ghost predicate NonNegative(mapping: seq<int>) { forall p :: 0 <= p < |mapping| ==> mapping[p] >= 0 }

  lemma AllMapped(expected: map<int, nat>, n: nat)
    requires |expected| == n && forall p :: 0 <= p < n ==> p in expected
    ensures expected.Keys == Interval(0, n)
  {
    IntervalSize(0, n);
    assert Interval(0, n) <= expected.Keys;
    if Interval(0, n) != expected.Keys {
      var p :| p in expected.Keys && p !in Interval(0, n);
      SubsetSize(Interval(0, n) + {p}, expected.Keys);
    }
    assert |expected| == |expected.Keys|;
  }

  lemma MappedSize(expected: map<int, nat>, n: nat)
    requires expected.Keys == Interval(0, n)
    ensures |expected| == n
  {
    IntervalSize(0, n);
    assert |expected| == |expected.Keys|;
  }

  /** For a plan the planner returned only one vector is accepted: the plan's own slots. */
  lemma ListsSlotsOfPlan(plan: WritePlan, l: nat, mapping: seq<int>)
    requires ValidWritePlan(plan) && l < NUM_LAYERS
    ensures SlotMap(ForLayer(plan.full, l)).Keys == Interval(0, plan.rowPlan.promptTokens)
    ensures ListsSlots(SlotMap(ForLayer(plan.full, l)), plan.rowPlan.promptTokens, mapping)
       <==> MatchesPlan(plan, l, mapping)
  {
    assert LayerPlanned(plan, l);
    SlotMapOfTiling(ForLayer(plan.full, l), plan.rowPlan.promptTokens);
  }

  /** For any plan: accepts exactly the vector that lists the slots of the layer's spans, if they
      cover the prompt and nothing else.  Otherwise the first failing check decides. */
  method ValidateSlotMapping(plan: WritePlan, l: nat, mapping: seq<int>) returns (r: WriteResult<()>)
    ensures r.Planned? <==>
      l < NUM_LAYERS && ListsSlots(SlotMap(ForLayer(plan.full, l)), plan.rowPlan.promptTokens, mapping)
    ensures r == Rejected(InvalidLayer) <==> l >= NUM_LAYERS
    ensures r == Rejected(SlotMappingLengthMismatch) <==> l < NUM_LAYERS && |mapping| != plan.rowPlan.promptTokens
    ensures r == Rejected(RangeCoverageMismatch) <==>
      && l < NUM_LAYERS && |mapping| == plan.rowPlan.promptTokens && NonNegative(mapping)
      && |SlotMap(ForLayer(plan.full, l))| != plan.rowPlan.promptTokens
    ensures ValidWritePlan(plan) ==> (r.Planned? <==> l < NUM_LAYERS && MatchesPlan(plan, l, mapping))
    ensures ValidWritePlan(plan) ==> r !in {Rejected(RangeCoverageMismatch), Rejected(UncoveredPosition)}
  {
    if l >= NUM_LAYERS {
      return Rejected(InvalidLayer);
    }
    r := CheckSlots(plan.full, l, plan.rowPlan.promptTokens, mapping);
    if ValidWritePlan(plan) {
      ListsSlotsOfPlan(plan, l, mapping);
      MappedSize(SlotMap(ForLayer(plan.full, l)), plan.rowPlan.promptTokens);
    }
  }

  method CheckSlots(full: seq<LayerSpan>, l: nat, promptTokens: nat, mapping: seq<int>) returns (r: WriteResult<()>)
    ensures r.Planned? <==> ListsSlots(SlotMap(ForLayer(full, l)), promptTokens, mapping)
    ensures r == Rejected(SlotMappingLengthMismatch) <==> |mapping| != promptTokens
    ensures r == Rejected(RangeCoverageMismatch) <==>
      |mapping| == promptTokens && NonNegative(mapping) && |SlotMap(ForLayer(full, l))| != promptTokens
    ensures r == Rejected(UncoveredPosition) ==> exists p :: 0 <= p < promptTokens && p !in SlotMap(ForLayer(full, l))
    ensures r.Rejected? ==> r.error != InvalidLayer
  {
    if |mapping| != promptTokens {
      return Rejected(SlotMappingLengthMismatch);
    }
    for k := 0 to |mapping|
      invariant forall p :: 0 <= p < k ==> mapping[p] >= 0
    {
      if mapping[k] < 0 {
        return Rejected(SlotMappingValueMismatch);
      }
    }
    var expected := ExpectedSlots(full, l);
    r := CompareSlots(expected, promptTokens, mapping);
  }

  method CompareSlots(expected: map<int, nat>, promptTokens: nat, mapping: seq<int>) returns (r: WriteResult<()>)
    requires |mapping| == promptTokens
    ensures r.Planned? <==> ListsSlots(expected, promptTokens, mapping)
    ensures r == Rejected(RangeCoverageMismatch) <==> |expected| != promptTokens
    ensures r == Rejected(UncoveredPosition) ==> exists p :: 0 <= p < promptTokens && p !in expected
    ensures r.Rejected? ==> r.error in {RangeCoverageMismatch, UncoveredPosition, SlotMappingValueMismatch}
  {
    if |expected| != promptTokens {
      if expected.Keys == Interval(0, promptTokens) {
        MappedSize(expected, promptTokens);
      }
      return Rejected(RangeCoverageMismatch);
    }
    for k := 0 to |mapping|
      invariant AgreesTo(expected, mapping, k)
    {
      if k !in expected {
        return Rejected(UncoveredPosition);
      }
      if mapping[k] != expected[k] {
        return Rejected(SlotMappingValueMismatch);
      }
    }
    AllMapped(expected, promptTokens);
    r := Planned(());
  }

  // ----- the slots of a scattered prompt

  lemma TilingOrder(spans: seq<Span>, lo: int, hi: int)
    requires Tiles(Targets(spans), lo, hi)
    ensures SortedBy(ByStart, spans) && TieFree(ByStart, spans)
  {
    TilesMeaning(Targets(spans), lo, hi);
    forall i, j | 0 <= i < j < |spans|
      ensures spans[i].target.start < spans[j].target.start
    {
      assert Targets(spans)[i] == TargetOf(spans[i]) && Targets(spans)[j] == TargetOf(spans[j]);
      assert Targets(spans)[i].end <= Targets(spans)[j].start;
    }
    forall a, b | a in multiset(spans) && b in multiset(spans) && ByStart(a, b) && ByStart(b, a)
      ensures a == b
    {
      assert a in spans && b in spans;
      var i :| 0 <= i < |spans| && spans[i] == a;
      var j :| 0 <= j < |spans| && spans[j] == b;
      assert i == j;
    }
  }

  lemma SameTiling(a: seq<Span>, b: seq<Span>, lo: int, hi: int)
    requires Tiles(Targets(a), lo, hi) && Tiles(Targets(b), lo, hi) && multiset(a) == multiset(b)
    ensures a == b
  {
    TilingOrder(a, lo, hi);
    TilingOrder(b, lo, hi);
    SortedUnique(ByStart, a, b);
  }

  /** For a whole-prompt scatter the accepted slot vector is the block table's own: position p
      goes to block_ids[p / size] * size + p % size. */
  lemma AcceptedSlots(scatter: ScatterPlan, layout: Layout, ordered: seq<BlockTable>, plan: WritePlan, l: nat)
    requires ValidLayout(layout) && |ordered| == NUM_CACHE_GROUPS && l < NUM_LAYERS
      && ScattersLayer(scatter, layout, ordered, l)
    requires ValidWritePlan(plan) && scatter.transfer.target == Bounds(0, plan.rowPlan.promptTokens)
    requires multiset(ForLayer(plan.full, l)) == multiset(ForLayer(scatter.layerSpans, l))
    ensures var table := ordered[layout.layers[l].groupId];
      && (forall p :: 0 <= p < plan.rowPlan.promptTokens ==> HasSlot(table, p))
      && SlotsOf(ForLayer(plan.full, l)) == TableSlots(table, 0, plan.rowPlan.promptTokens)
  {
    var id := layout.layers[l].groupId;
    assert LayerPlanned(plan, l);
    SameTiling(ForLayer(plan.full, l), ForLayer(scatter.layerSpans, l), 0, plan.rowPlan.promptTokens);
    TilingSlots(ForLayer(scatter.layerSpans, l), GroupById(layout, id), ordered[id], scatter.transfer, 0,
      plan.rowPlan.promptTokens);
  }

  /** With distinct block ids no two positions share a slot. */
  lemma TableSlotsDistinct(table: BlockTable, n: nat)
    requires DistinctBlocks(table) && forall p :: 0 <= p < n ==> HasSlot(table, p)
    ensures Distinct(TableSlots(table, 0, n))
  {
    forall i, j | 0 <= i < j < n
      ensures SlotOf(table, i) != SlotOf(table, j)
    {
      if SlotOf(table, i) == SlotOf(table, j) {
        DistinctSlots(table, i, j);
      }
    }
  }
}
