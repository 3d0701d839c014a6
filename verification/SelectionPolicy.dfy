/** The check-layer policy: which cached rows a layer recomputes for a given ratio. */
module SelectionPolicy {
  import opened Order
  import opened Ranges
  import opened ModelTarget
  import opened RowSelection
  import opened Models
  import opened Rankings

  datatype PolicyError =
    | InvalidPromptTokens
    | InvalidCheckLayer
    | InvalidRecomputeRatio
    | InvalidSuffixLength
    | InvalidImportanceScores
    | InvalidCacheRanges
    | InvalidRatioSweep
    | InconsistentSweep

  datatype Outcome<+T> = Chosen(value: T) | Failed(error: PolicyError)

  datatype PolicyResult = PolicyResult(
    checkLayer: nat,
    ratio: real,
    suffix: nat,
    candidates: seq<TokenRange>,
    recompute: seq<TokenRange>,
    selected: seq<nat>,
    rowPlan: RowPlan)

  // ----- rows

  function Rows(lo: nat, hi: nat): seq<nat> {
    if lo >= hi then [] else Rows(lo, hi - 1) + [hi - 1]
  }

  /** Cached rows before the forced suffix, in order. */
  function EligibleRows(cached: seq<TokenRange>, limit: nat): seq<nat> {
    if cached == [] then []
    else EligibleRows(cached[..|cached| - 1], limit)
         + Rows(cached[|cached| - 1].start, Min(cached[|cached| - 1].end, limit))
  }

  ghost predicate Increasing(s: seq<nat>) { forall i, j :: 0 <= i < j < |s| ==> s[i] < s[j] }

  lemma {:induction false} RowsMeaning(lo: nat, hi: nat)
    ensures Increasing(Rows(lo, hi))
    ensures forall p :: p in Rows(lo, hi) <==> lo <= p < hi
    decreases hi
  {
    if lo < hi {
      RowsMeaning(lo, hi - 1);
      IncreasingAppend(Rows(lo, hi - 1), [hi - 1], hi - 1);
    }
  }

  lemma IncreasingAppend(a: seq<nat>, b: seq<nat>, bound: nat)
    requires Increasing(a) && Increasing(b)
    requires (forall p :: p in a ==> p < bound) && (forall p :: p in b ==> bound <= p)
    ensures Increasing(a + b)
  {
    forall i, j | 0 <= i < j < |a + b|
      ensures (a + b)[i] < (a + b)[j]
    {
      if i < |a| <= j {
        assert a[i] in a && b[j - |a|] in b;
      }
    }
  }

  lemma {:induction false} EligibleMeaning(cached: seq<TokenRange>, limit: nat)
    requires Ordered(cached)
    ensures Increasing(EligibleRows(cached, limit))
    ensures forall p :: p in EligibleRows(cached, limit) <==> p in Union(cached) && p < limit
  {
    if cached != [] {
      var front, last := cached[..|cached| - 1], cached[|cached| - 1];
      EligibleMeaning(front, limit);
      RowsMeaning(last.start, Min(last.end, limit));
      UnionFront(cached);
      var a, b := EligibleRows(front, limit), Rows(last.start, Min(last.end, limit));
      forall p | p in a
        ensures p < last.start
      {
        FrontBefore(cached, p);
      }
      IncreasingAppend(a, b, last.start);
    }
  }

  lemma FrontBefore(cached: seq<TokenRange>, p: int)
    requires Disjoint(cached) && cached != [] && p in Union(cached[..|cached| - 1])
    ensures p < cached[|cached| - 1].start
  {
    var front := cached[..|cached| - 1];
    var i :| 0 <= i < |front| && InBounds(front[i].start, front[i].end, p);
    assert cached[i] == front[i];
  }

  // ----- ranking

  predicate NatLe(a: nat, b: nat) { a <= b }

  function Budget(count: nat, ratio: real): nat
    requires 0.0 <= ratio <= 1.0
  {
    assert 0.0 <= count as real * ratio;
    (count as real * ratio).Floor
  }

  lemma BudgetBounded(count: nat, ratio: real)
    requires 0.0 <= ratio <= 1.0
    ensures Budget(count, ratio) <= count
    ensures ratio == 1.0 ==> Budget(count, ratio) == count
  {
    assert count as real * ratio <= count as real * 1.0;
  }

  lemma BudgetMonotone(count: nat, low: real, high: real)
    requires 0.0 <= low <= high <= 1.0
    ensures Budget(count, low) <= Budget(count, high)
  {
    assert count as real * low <= count as real * high;
  }

  /** The first `budget` rows of the ranking, listed by position. */
  function TopRows(rows: seq<nat>, scores: seq<real>, budget: nat): seq<nat> {
    var ranked := SortBy(Ranking(scores), rows);
    SortBy(NatLe, ranked[..Min(budget, |ranked|)])
  }

  /** The rows that beat `p`. */
  ghost function Better(rows: set<nat>, scores: seq<real>, p: nat): set<nat> {
    set q | q in rows && q != p && Ahead(scores, q, p)
  }

  lemma RankedPlace(ranked: seq<nat>, scores: seq<real>, i: nat)
    requires SortedBy(Ranking(scores), ranked) && Distinct(ranked) && i < |ranked|
    ensures |Better(ToSet(ranked), scores, ranked[i])| == i
  {
    var before := ranked[..i];
    forall q | q in Better(ToSet(ranked), scores, ranked[i])
      ensures q in ToSet(before)
    {
      var k :| 0 <= k < |ranked| && ranked[k] == q;
      assert k < i;
      assert before[k] == q;
    }
    forall q | q in ToSet(before)
      ensures q in Better(ToSet(ranked), scores, ranked[i])
    {
      var k :| 0 <= k < |before| && before[k] == q;
      assert Ranking(scores)(ranked[k], ranked[i]);
    }
    assert Better(ToSet(ranked), scores, ranked[i]) == ToSet(before);
    DistinctSetSize(before);
  }

  lemma IncreasingDistinct(s: seq<nat>)
    requires Increasing(s)
    ensures Distinct(s) && SortedBy(NatLe, s)
  {
  }

  lemma SortedDistinctIncreasing(s: seq<nat>)
    requires Distinct(s) && SortedBy(NatLe, s)
    ensures Increasing(s)
  {
    forall i, j | 0 <= i < j < |s|
      ensures s[i] < s[j]
    {
      assert NatLe(s[i], s[j]);
    }
  }

  lemma RankedRows(rows: seq<nat>, scores: seq<real>)
    requires Distinct(rows)
    ensures var ranked := SortBy(Ranking(scores), rows);
      SortedBy(Ranking(scores), ranked) && Distinct(ranked) && |ranked| == |rows| && ToSet(ranked) == ToSet(rows)
  {
    RankingOrder(scores);
    var ranked := SortBy(Ranking(scores), rows);
    SortSorted(Ranking(scores), rows);
    SortMultiset(Ranking(scores), rows);
    SortElements(Ranking(scores), rows);
    DistinctPermutation(rows, ranked);
  }

  lemma InTake(s: seq<nat>, k: nat, i: nat)
    requires Distinct(s) && k <= |s| && i < |s|
    ensures s[i] in s[..k] <==> i < k
  {
    if i < k {
      assert s[..k][i] == s[i];
    }
  }

  /** A row is taken exactly when fewer than `budget` rows beat it. */
  lemma TopRowsMeaning(rows: seq<nat>, scores: seq<real>, budget: nat, p: nat)
    requires Distinct(rows)
    ensures p in TopRows(rows, scores, budget) <==> p in rows && |Better(ToSet(rows), scores, p)| < budget
  {
    RankedRows(rows, scores);
    var ranked := SortBy(Ranking(scores), rows);
    var k := Min(budget, |ranked|);
    SortElements(NatLe, ranked[..k]);
    if p in rows {
      assert p in ToSet(ranked);
      var i :| 0 <= i < |ranked| && ranked[i] == p;
      RankedPlace(ranked, scores, i);
      InTake(ranked, k, i);
    } else {
      assert p !in ToSet(ranked);
    }
  }

  lemma TopRowsShape(rows: seq<nat>, scores: seq<real>, budget: nat)
    requires Distinct(rows)
    ensures Increasing(TopRows(rows, scores, budget))
    ensures |TopRows(rows, scores, budget)| == Min(budget, |rows|)
  {
    RankedRows(rows, scores);
    var taken := SortBy(Ranking(scores), rows)[..Min(budget, |rows|)];
    SortSorted(NatLe, taken);
    SortMultiset(NatLe, taken);
    DistinctPermutation(taken, SortBy(NatLe, taken));
    SortedDistinctIncreasing(SortBy(NatLe, taken));
  }

  // ----- the selection as a set of rows

  /** Rows that must be recomputed whatever the ratio: uncached, or in the suffix. */
  ghost function Forced(prompt: nat, cached: seq<TokenRange>, suffix: nat): set<int>
    requires suffix <= prompt
  {
    (Interval(0, prompt) - Union(cached)) + Interval(prompt - suffix, prompt)
  }

  ghost predicate ValidInput(
      prompt: nat, cached: seq<TokenRange>, scores: seq<real>, checkLayer: int, ratio: real, suffix: int)
  {
    && ValidRows(prompt, cached)
    && 0 <= checkLayer < NUM_LAYERS && 0.0 <= ratio <= 1.0 && 0 <= suffix <= prompt
    && |scores| == prompt && (forall i :: 0 <= i < |scores| ==> 0.0 <= scores[i])
  }

  function SelectedRows(prompt: nat, cached: seq<TokenRange>, scores: seq<real>, ratio: real, suffix: nat): seq<nat>
    requires 0.0 <= ratio <= 1.0 && suffix <= prompt
  {
    var eligible := EligibleRows(cached, prompt - suffix);
    TopRows(eligible, scores, Budget(|eligible|, ratio))
  }

  /** What a result must be, whoever produced it: this is what the artifact reader checks. */
  ghost predicate IsPoint(r: PolicyResult) {
    && r.rowPlan.Valid() && r.checkLayer < NUM_LAYERS && 0.0 <= r.ratio <= 1.0
    && r.suffix <= r.rowPlan.promptTokens
    && ValidRows(r.rowPlan.promptTokens, r.candidates)
    && Increasing(r.selected)
    && (forall p :: p in r.selected ==> p in Union(r.candidates) && p < r.rowPlan.promptTokens - r.suffix)
    && |r.selected| == Budget(|EligibleRows(r.candidates, r.rowPlan.promptTokens - r.suffix)|, r.ratio)
    && Canonical(r.recompute)
    && Union(r.recompute) == Forced(r.rowPlan.promptTokens, r.candidates, r.suffix) + Positions(r.selected)
    && (forall i :: 0 <= i < NUM_LAYERS ==> r.rowPlan.layers[i].recompute == r.recompute)
  }

  /** The merged list of forced and selected rows. */
  method RecomputeRanges(
      prompt: nat, cached: seq<TokenRange>, suffix: nat, selected: seq<nat>) returns (recompute: seq<TokenRange>)
    requires suffix <= prompt && ValidRows(prompt, cached)
    requires forall p :: p in selected ==> p < prompt
    ensures Canonical(recompute) && ValidRows(prompt, recompute)
    ensures Union(recompute) == Forced(prompt, cached, suffix) + Positions(selected)
  {
    var nonCached := ComputeComplement(prompt, cached);
    var forcedSuffix: seq<TokenRange> := if suffix > 0 then [Bounds(prompt - suffix, prompt)] else [];
    var singles := Singles(selected);
    recompute := MergeRanges(nonCached + forcedSuffix + singles);
    PartsMeaning(prompt, cached, suffix, selected, nonCached, forcedSuffix, singles);
    assert Union(recompute) == Forced(prompt, cached, suffix) + Positions(selected);
    CanonicalWithin(prompt, recompute);
  }

  function Singles(selected: seq<nat>): (rs: seq<TokenRange>)
    ensures |rs| == |selected|
  {
    seq(|selected|, i requires 0 <= i < |selected| => Bounds(selected[i], selected[i] + 1))
  }

  lemma SinglesMeaning(selected: seq<nat>)
    ensures Union(Singles(selected)) == Positions(selected)
  {
    var rs := Singles(selected);
    forall p
      ensures Covers(rs, p) <==> p in Positions(selected)
    {
      if Covers(rs, p) {
        var i :| 0 <= i < |rs| && InBounds(rs[i].start, rs[i].end, p);
        assert selected[i] == p;
      }
      if p in Positions(selected) {
        var i :| 0 <= i < |selected| && selected[i] == p;
        assert InBounds(rs[i].start, rs[i].end, p);
      }
    }
  }

  lemma PartsMeaning(prompt: nat, cached: seq<TokenRange>, suffix: nat, selected: seq<nat>,
                     nonCached: seq<TokenRange>, forcedSuffix: seq<TokenRange>, singles: seq<TokenRange>)
    requires suffix <= prompt && ValidRows(prompt, cached)
    requires nonCached == Complement(prompt, cached) && singles == Singles(selected)
    requires forcedSuffix == if suffix > 0 then [Bounds(prompt - suffix, prompt)] else []
    ensures NonEmpty(nonCached + forcedSuffix + singles)
    ensures Union(nonCached + forcedSuffix + singles) == Forced(prompt, cached, suffix) + Positions(selected)
  {
    ComplementMeaning(prompt, cached);
    UnionOfOne(Bounds(prompt - suffix, prompt));
    SinglesMeaning(selected);
    UnionAppend(nonCached, forcedSuffix);
    UnionAppend(nonCached + forcedSuffix, singles);
  }

  lemma CanonicalWithin(prompt: nat, rs: seq<TokenRange>)
    requires Canonical(rs) && Union(rs) <= Interval(0, prompt)
    ensures Within(rs, prompt) && Ordered(rs)
  {
    forall i | 0 <= i < |rs|
      ensures rs[i].end <= prompt
    {
      assert InBounds(rs[i].start, rs[i].end, rs[i].end - 1);
      assert rs[i].end - 1 in Union(rs);
    }
  }

  method CheckScores(prompt: nat, scores: seq<real>) returns (ok: bool)
    ensures ok <==> |scores| == prompt && forall i :: 0 <= i < |scores| ==> 0.0 <= scores[i]
  {
    if |scores| != prompt {
      return false;
    }
    for k := 0 to |scores|
      invariant forall i :: 0 <= i < k ==> 0.0 <= scores[i]
    {
      if scores[k] < 0.0 {
        return false;
      }
    }
    ok := true;
  }

  /** The selection: the same list in every layer, and never refused by the row plan. */
  method Select(prompt: nat, cached: seq<TokenRange>, scores: seq<real>, checkLayer: int, ratio: real, suffix: int)
      returns (r: Outcome<PolicyResult>)
    ensures r.Chosen? <==> ValidInput(prompt, cached, scores, checkLayer, ratio, suffix)
    ensures r.Chosen? ==>
      && IsPoint(r.value) && r.value.rowPlan.promptTokens == prompt && r.value.candidates == cached
      && r.value.checkLayer == checkLayer && r.value.ratio == ratio && r.value.suffix == suffix
      && r.value.selected == SelectedRows(prompt, cached, scores, ratio, suffix)
  {
    if prompt > MAX_CONTEXT_TOKENS {
      return Failed(InvalidPromptTokens);
    }
    if !(0 <= checkLayer < NUM_LAYERS) {
      return Failed(InvalidCheckLayer);
    }
    if !(0.0 <= ratio <= 1.0) {
      return Failed(InvalidRecomputeRatio);
    }
    if !(0 <= suffix <= prompt) {
      return Failed(InvalidSuffixLength);
    }
    var scoresOk := CheckScores(prompt, scores);
    if !scoresOk {
      return Failed(InvalidImportanceScores);
    }
    var checked := NormalizeRanges(prompt, cached);
    if checked.Refused? {
      return Failed(InvalidCacheRanges);
    }
    var selected := SelectedRows(prompt, cached, scores, ratio, suffix);
    SelectedShape(prompt, cached, scores, ratio, suffix);
    var recompute := RecomputeRanges(prompt, cached, suffix, selected);
    var byLayer := seq(NUM_LAYERS, i => recompute);
    var plan := FromRecomputeRanges(prompt, byLayer);
    r := Chosen(PolicyResult(checkLayer, ratio, suffix, cached, recompute, selected, plan.value));
  }

  lemma SelectedShape(prompt: nat, cached: seq<TokenRange>, scores: seq<real>, ratio: real, suffix: nat)
    requires ValidRows(prompt, cached) && 0.0 <= ratio <= 1.0 && suffix <= prompt
    ensures var selected := SelectedRows(prompt, cached, scores, ratio, suffix);
      && Increasing(selected)
      && (forall p :: p in selected ==> p in Union(cached) && p < prompt - suffix)
      && |selected| == Budget(|EligibleRows(cached, prompt - suffix)|, ratio)
  {
    var eligible := EligibleRows(cached, prompt - suffix);
    var budget := Budget(|eligible|, ratio);
    EligibleMeaning(cached, prompt - suffix);
    IncreasingDistinct(eligible);
    TopRowsShape(eligible, scores, budget);
    BudgetBounded(|eligible|, ratio);
    forall p | p in TopRows(eligible, scores, budget)
      ensures p in eligible
    {
      TopRowsMeaning(eligible, scores, budget, p);
    }
  }

  // ----- what the policy promises

  /** Row `p` is recomputed exactly when it is uncached, in the suffix, or outranked by
      fewer than floor(eligible * ratio) eligible rows. */
  lemma RecomputedIff(
      prompt: nat, cached: seq<TokenRange>, scores: seq<real>, ratio: real, suffix: nat, r: PolicyResult, p: nat)
    requires IsPoint(r) && r.rowPlan.promptTokens == prompt && r.candidates == cached && r.suffix == suffix
      && r.ratio == ratio
    requires r.selected == SelectedRows(prompt, cached, scores, ratio, suffix)
    requires p < prompt
    ensures var eligible := EligibleRows(cached, prompt - suffix);
      p in Union(r.recompute) <==>
        || p !in Union(cached)
        || p >= prompt - suffix
        || |Better(ToSet(eligible), scores, p)| < Budget(|eligible|, ratio)
  {
    PointRow(r, p);
    SelectedIff(prompt, cached, scores, ratio, suffix, p);
  }

  /** A point recomputes the forced rows and the selected ones. */
  lemma PointRow(r: PolicyResult, p: nat)
    requires IsPoint(r) && p < r.rowPlan.promptTokens
    ensures p in Union(r.recompute) <==>
      p !in Union(r.candidates) || p >= r.rowPlan.promptTokens - r.suffix || p in r.selected
  {
    assert p in Union(r.recompute) <==>
      p in Forced(r.rowPlan.promptTokens, r.candidates, r.suffix) || p in Positions(r.selected);
  }

  lemma SelectedIff(prompt: nat, cached: seq<TokenRange>, scores: seq<real>, ratio: real, suffix: nat, p: nat)
    requires ValidRows(prompt, cached) && 0.0 <= ratio <= 1.0 && suffix <= prompt
    ensures var eligible := EligibleRows(cached, prompt - suffix);
      p in SelectedRows(prompt, cached, scores, ratio, suffix) <==>
        p in Union(cached) && p < prompt - suffix && |Better(ToSet(eligible), scores, p)| < Budget(|eligible|, ratio)
  {
    var eligible := EligibleRows(cached, prompt - suffix);
    EligibleMeaning(cached, prompt - suffix);
    IncreasingDistinct(eligible);
    TopRowsMeaning(eligible, scores, Budget(|eligible|, ratio), p);
  }

  /** A lower ratio recomputes a subset of the rows. */
  lemma LowerRatioNested(prompt: nat, cached: seq<TokenRange>, scores: seq<real>, low: real, high: real, suffix: nat)
    requires ValidRows(prompt, cached) && 0.0 <= low <= high <= 1.0 && suffix <= prompt
    ensures forall p :: p in SelectedRows(prompt, cached, scores, low, suffix) ==>
      p in SelectedRows(prompt, cached, scores, high, suffix)
  {
    var eligible := EligibleRows(cached, prompt - suffix);
    EligibleMeaning(cached, prompt - suffix);
    IncreasingDistinct(eligible);
    BudgetMonotone(|eligible|, low, high);
    forall p | p in SelectedRows(prompt, cached, scores, low, suffix)
      ensures p in SelectedRows(prompt, cached, scores, high, suffix)
    {
      TopRowsMeaning(eligible, scores, Budget(|eligible|, low), p);
      TopRowsMeaning(eligible, scores, Budget(|eligible|, high), p);
    }
  }

  /** Ratio 1 recomputes the whole prompt in every layer. */
  lemma FullRatio(r: PolicyResult)
    requires IsPoint(r) && r.ratio == 1.0
    ensures Union(r.recompute) == Interval(0, r.rowPlan.promptTokens)
    ensures forall i :: 0 <= i < NUM_LAYERS ==> r.rowPlan.layers[i].CachedTokens() == 0
  {
    var prompt := r.rowPlan.promptTokens;
    var eligible := EligibleRows(r.candidates, prompt - r.suffix);
    EligibleMeaning(r.candidates, prompt - r.suffix);
    BudgetBounded(|eligible|, 1.0);
    AllSelected(eligible, r.selected);
    UnionBounded(r.candidates, prompt);
    assert Union(r.recompute) == Interval(0, prompt);
    forall i | 0 <= i < NUM_LAYERS
      ensures r.rowPlan.layers[i].CachedTokens() == 0
    {
      SelectionCoversPrompt(r.rowPlan.layers[i]);
      SumIsUnionSize(r.recompute);
      IntervalSize(0, prompt);
    }
  }

  lemma AllSelected(eligible: seq<nat>, selected: seq<nat>)
    requires Increasing(eligible) && Increasing(selected) && |eligible| == |selected|
    requires forall p :: p in selected ==> p in eligible
    ensures forall p :: p in eligible ==> p in selected
  {
    IncreasingDistinct(eligible);
    IncreasingDistinct(selected);
    DistinctSetSize(eligible);
    DistinctSetSize(selected);
    assert ToSet(selected) <= ToSet(eligible);
    SubsetSize(ToSet(selected), ToSet(eligible));
    assert forall p :: p in eligible ==> p in ToSet(selected);
  }

  // ----- ratio sweeps

  datatype Measurement = Measurement(maxAbsError: real, meanAbsError: real, latencySeconds: real) {
    predicate Valid() { maxAbsError >= 0.0 && meanAbsError >= 0.0 && latencySeconds >= 0.0 }
  }

  datatype SweepPoint = SweepPoint(result: PolicyResult, measurement: Option<Measurement>)

  /** The fields every point of a sweep shares. */
  datatype Context = Context(promptTokens: nat, checkLayer: nat, suffix: nat, candidates: seq<TokenRange>)

  function ContextOf(r: PolicyResult): Context {
    Context(r.rowPlan.promptTokens, r.checkLayer, r.suffix, r.candidates)
  }

  /** What the sweep constructor accepts: ratios strictly fall and the context is shared. */
  ghost predicate SweepShape(points: seq<SweepPoint>) {
    && points != []
    && (forall i, j :: 0 <= i < j < |points| ==> points[i].result.ratio > points[j].result.ratio)
    && (forall i :: 0 <= i < |points| ==> ContextOf(points[i].result) == ContextOf(points[0].result))
  }

  method MakeSweep(points: seq<SweepPoint>) returns (r: Outcome<seq<SweepPoint>>)
    ensures r.Chosen? <==> SweepShape(points)
    ensures r.Chosen? ==> r.value == points
    ensures r == Failed(InconsistentSweep) ==>
      points != [] && exists i :: 0 <= i < |points| && ContextOf(points[i].result) != ContextOf(points[0].result)
  {
    if points == [] {
      return Failed(InvalidRatioSweep);
    }
    for k := 1 to |points|
      invariant forall i, j :: 0 <= i < j < k ==> points[i].result.ratio > points[j].result.ratio
    {
      if points[k - 1].result.ratio <= points[k].result.ratio {
        return Failed(InvalidRatioSweep);
      }
    }
    if exists i :: 1 <= i < |points| && ContextOf(points[i].result) != ContextOf(points[0].result) {
      return Failed(InconsistentSweep);
    }
    r := Chosen(points);
  }

  /** Point `k` of a sweep is the policy's own selection for ratio `k`. */
  ghost predicate SweptBy(
      points: seq<SweepPoint>, prompt: nat, cached: seq<TokenRange>, scores: seq<real>, checkLayer: int,
      ratios: seq<real>, suffix: int)
  {
    && |points| == |ratios|
    && forall k :: 0 <= k < |points| ==> PointFor(points[k], prompt, cached, scores, checkLayer, ratios[k], suffix)
  }

  ghost predicate PointFor(point: SweepPoint, prompt: nat, cached: seq<TokenRange>, scores: seq<real>, checkLayer: int,
                           ratio: real, suffix: int) {
    && ValidInput(prompt, cached, scores, checkLayer, ratio, suffix)
    && IsPoint(point.result) && point.measurement.None?
    && ContextOf(point.result) == Context(prompt, checkLayer, suffix, cached)
    && point.result.ratio == ratio
    && point.result.selected == SelectedRows(prompt, cached, scores, ratio, suffix)
  }

  method Sweep(prompt: nat, cached: seq<TokenRange>, scores: seq<real>, checkLayer: int, ratios: seq<real>, suffix: int)
      returns (r: Outcome<seq<SweepPoint>>)
    ensures r.Chosen? <==>
      && ratios != []
        && (forall k :: 0 <= k < |ratios| ==> ValidInput(prompt, cached, scores, checkLayer, ratios[k], suffix))
      && (forall i, j :: 0 <= i < j < |ratios| ==> ratios[i] > ratios[j])
    ensures r.Chosen? ==> SweptBy(r.value, prompt, cached, scores, checkLayer, ratios, suffix) && SweepShape(r.value)
  {
    if ratios == [] {
      return Failed(InvalidRatioSweep);
    }
    var points: seq<SweepPoint> := [];
    for k := 0 to |ratios|
      invariant |points| == k
      invariant forall i :: 0 <= i < k ==> PointFor(points[i], prompt, cached, scores, checkLayer, ratios[i], suffix)
    {
      var one := Select(prompt, cached, scores, checkLayer, ratios[k], suffix);
      if one.Failed? {
        return Failed(one.error);
      }
      points := points + [SweepPoint(one.value, None)];
    }
    r := MakeSweep(points);
  }
}
