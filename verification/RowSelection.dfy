/** Row plans for one forward pass: which prompt rows every layer recomputes, and
    which it may read from the cache. */
module RowSelection {
  import opened Order
  import opened Ranges
  import opened BlockArithmetic
  import opened ModelTarget

  datatype PlanError =
    | InvalidPromptLength
    | InvalidLayerCount
    | InvalidLayerIndex
    | InvalidRange
    | RangeOutOfBounds
    | NonCanonicalRanges
    | OverlappingRanges

  datatype Checked<+T> = Accepted(value: T) | Refused(error: PlanError)

  /** What the row validator must accept: non-empty, in the prompt, sorted, not overlapping. */
  ghost predicate ValidRows(promptTokens: nat, ranges: seq<TokenRange>) {
    promptTokens <= MAX_CONTEXT_TOKENS && Ordered(ranges) && Within(ranges, promptTokens)
  }

  ghost predicate Sorted(ranges: seq<TokenRange>) { SortedBy(RangeLe, ranges) }

  /** Each range in turn must be non-empty and inside the prompt. */
  method CheckEach(promptTokens: nat, ranges: seq<TokenRange>) returns (r: Checked<()>)
    ensures r.Accepted? <==> NonEmpty(ranges) && Within(ranges, promptTokens)
    ensures r.Refused? ==> r.error in {InvalidRange, RangeOutOfBounds}
  {
    for k := 0 to |ranges|
      invariant forall i :: 0 <= i < k ==> ranges[i].start < ranges[i].end <= promptTokens
    {
      if Len(ranges[k]) == 0 {
        return Refused(InvalidRange);
      }
      if ranges[k].end > promptTokens {
        return Refused(RangeOutOfBounds);
      }
    }
    r := Accepted(());
  }

  /** A sorted list of non-empty ranges overlaps somewhere only if two neighbours do. */
  lemma NeighboursDecide(ranges: seq<TokenRange>)
    requires NonEmpty(ranges) && Sorted(ranges)
    requires forall i :: 0 < i < |ranges| ==> !ranges[i - 1].Overlaps(ranges[i])
    ensures Disjoint(ranges)
  {
    forall i, j | 0 <= i < j < |ranges|
      ensures ranges[i].end <= ranges[j].start
    {
      assert !ranges[j - 1].Overlaps(ranges[j]);
      assert RangeLe(ranges[j - 1], ranges[j]);
      if i < j - 1 {
        NeighbourEnds(ranges, i, j - 1);
      }
    }
  }

  lemma {:induction false} NeighbourEnds(ranges: seq<TokenRange>, i: nat, j: nat)
    requires NonEmpty(ranges) && Sorted(ranges) && i < j < |ranges|
    requires forall i :: 0 < i < |ranges| ==> !ranges[i - 1].Overlaps(ranges[i])
    ensures ranges[i].end <= ranges[j].start
    decreases j
  {
    assert !ranges[j - 1].Overlaps(ranges[j]);
    assert RangeLe(ranges[j - 1], ranges[j]);
    if i < j - 1 {
      NeighbourEnds(ranges, i, j - 1);
    }
  }

  lemma OrderedIsSorted(ranges: seq<TokenRange>)
    requires Ordered(ranges)
    ensures Sorted(ranges)
    ensures forall i :: 0 < i < |ranges| ==> !ranges[i - 1].Overlaps(ranges[i])
  {
  }

  /** The validator accepts exactly the valid lists and returns them unchanged. */
  method NormalizeRanges(promptTokens: nat, ranges: seq<TokenRange>) returns (r: Checked<seq<TokenRange>>)
    ensures r.Accepted? <==> ValidRows(promptTokens, ranges)
    ensures r.Accepted? ==> r.value == ranges
    ensures r == Refused(InvalidPromptLength) <==> promptTokens > MAX_CONTEXT_TOKENS
    ensures r == Refused(NonCanonicalRanges) ==> !Sorted(ranges)
    ensures r == Refused(OverlappingRanges) ==> Sorted(ranges) && NonEmpty(ranges) && Within(ranges, promptTokens)
  {
    if promptTokens > MAX_CONTEXT_TOKENS {
      return Refused(InvalidPromptLength);
    }
    var each := CheckEach(promptTokens, ranges);
    if each.Refused? {
      return Refused(each.error);
    }
    var ordered := SortBy(RangeLe, ranges);
    RangeOrder();
    SortSorted(RangeLe, ranges);
    if Sorted(ranges) {
      SortIdentity(RangeLe, ranges);
    }
    if ordered != ranges {
      if Ordered(ranges) {
        OrderedIsSorted(ranges);
      }
      return Refused(NonCanonicalRanges);
    }
    if exists i :: 0 < i < |ordered| && ordered[i - 1].Overlaps(ordered[i]) {
      return Refused(OverlappingRanges);
    }
    NeighboursDecide(ranges);
    r := Accepted(ordered);
  }

  /** Rows recomputed for one layer; the complement is what may be read from the cache. */
  datatype LayerRows = LayerRows(layerIndex: nat, promptTokens: nat, recompute: seq<TokenRange>) {
    ghost predicate Valid() { layerIndex < NUM_LAYERS && ValidRows(promptTokens, recompute) }

    function CachedRanges(): seq<TokenRange> { Complement(promptTokens, recompute) }

    function RecomputeTokens(): nat { TokenSum(recompute) }

    function CachedTokens(): nat { TokenSum(CachedRanges()) }

    predicate CoversPrompt() { RecomputeTokens() + CachedTokens() == promptTokens }
  }

  /** Recomputed and cached rows split the prompt of every valid selection. */
  lemma SelectionCoversPrompt(rows: LayerRows)
    requires rows.Valid()
    ensures rows.CoversPrompt()
    ensures Union(rows.recompute) + Union(rows.CachedRanges()) == Interval(0, rows.promptTokens)
    ensures Union(rows.recompute) !! Union(rows.CachedRanges())
  {
    ComplementMeaning(rows.promptTokens, rows.recompute);
    ComplementCounts(rows.promptTokens, rows.recompute);
    UnionBounded(rows.recompute, rows.promptTokens);
  }

  /** One selection for every layer, all over the same prompt. */
  datatype RowPlan = RowPlan(promptTokens: nat, layers: seq<LayerRows>) {
    ghost predicate Valid() {
      && promptTokens <= MAX_CONTEXT_TOKENS
      && |layers| == NUM_LAYERS
      && (forall i :: 0 <= i < |layers| ==>
        layers[i].Valid() && layers[i].layerIndex == i && layers[i].promptTokens == promptTokens)
    }

    function RecomputeTokens(): nat {
      SumOf(seq(|layers|, i requires 0 <= i < |layers| => layers[i].RecomputeTokens()))
    }

    function CachedTokens(): nat {
      SumOf(seq(|layers|, i requires 0 <= i < |layers| => layers[i].CachedTokens()))
    }
  }

  function SumOf(s: seq<nat>): nat {
    if s == [] then 0 else SumOf(s[..|s| - 1]) + s[|s| - 1]
  }

  lemma {:induction false} SumOfPairs(a: seq<nat>, b: seq<nat>, total: nat)
    requires |a| == |b| && forall i :: 0 <= i < |a| ==> a[i] + b[i] == total
    ensures SumOf(a) + SumOf(b) == |a| * total
  {
    if a != [] {
      SumOfPairs(a[..|a| - 1], b[..|b| - 1], total);
      NextMultiple(|a| - 1, total);
    }
  }

  /** Over all layers, recomputed plus cached rows are exactly one prompt per layer. */
  lemma PlanAccountsForEveryRow(plan: RowPlan)
    requires plan.Valid()
    ensures plan.RecomputeTokens() + plan.CachedTokens() == NUM_LAYERS * plan.promptTokens
  {
    var a := seq(|plan.layers|, i requires 0 <= i < |plan.layers| => plan.layers[i].RecomputeTokens());
    var b := seq(|plan.layers|, i requires 0 <= i < |plan.layers| => plan.layers[i].CachedTokens());
    forall i | 0 <= i < |a|
      ensures a[i] + b[i] == plan.promptTokens
    {
      SelectionCoversPrompt(plan.layers[i]);
      assert a[i] == plan.layers[i].RecomputeTokens() && b[i] == plan.layers[i].CachedTokens();
    }
    SumOfPairs(a, b, plan.promptTokens);
  }

  /** Builds one selection per layer.  Accepted exactly when every list is valid; the
      coverage check on the finished selections never fires. */
  method FromRecomputeRanges(promptTokens: nat, rangesByLayer: seq<seq<TokenRange>>) returns (r: Checked<RowPlan>)
    ensures r.Accepted? <==>
      && promptTokens <= MAX_CONTEXT_TOKENS && |rangesByLayer| == NUM_LAYERS
      && forall i :: 0 <= i < |rangesByLayer| ==> ValidRows(promptTokens, rangesByLayer[i])
    ensures r.Accepted? ==>
      && r.value.Valid() && r.value.promptTokens == promptTokens
      && forall i :: 0 <= i < NUM_LAYERS ==> r.value.layers[i].recompute == rangesByLayer[i]
  {
    if promptTokens > MAX_CONTEXT_TOKENS {
      return Refused(InvalidPromptLength);
    }
    if |rangesByLayer| != NUM_LAYERS {
      return Refused(InvalidLayerCount);
    }
    var layers: seq<LayerRows> := [];
    for k := 0 to NUM_LAYERS
      invariant |layers| == k
      invariant forall i :: 0 <= i < k ==> ValidRows(promptTokens, rangesByLayer[i])
      invariant forall i :: 0 <= i < k ==> layers[i] == LayerRows(i, promptTokens, rangesByLayer[i])
    {
      var checked := NormalizeRanges(promptTokens, rangesByLayer[k]);
      if checked.Refused? {
        return Refused(checked.error);
      }
      layers := layers + [LayerRows(k, promptTokens, checked.value)];
    }
    for k := 0 to NUM_LAYERS {
      SelectionCoversPrompt(layers[k]);
      if layers[k].layerIndex != k {
        return Refused(InvalidLayerIndex);
      }
      if layers[k].promptTokens != promptTokens || !layers[k].CoversPrompt() {
        return Refused(InvalidPromptLength);
      }
    }
    r := Accepted(RowPlan(promptTokens, layers));
  }
}
