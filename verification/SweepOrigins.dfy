/** Which readable sweeps the policy could have produced. */
module SweepOrigins {
  import opened Order
  import opened Ranges
  import opened Models
  import opened Rankings
  import opened SelectionPolicy
  import opened SweepArtifacts

  /** Every sweep the policy returns can be written, and reads back unchanged. */
  lemma PolicySweepSurvives(
      points: seq<SweepPoint>, prompt: nat, cached: seq<TokenRange>, scores: seq<real>, checkLayer: int,
      ratios: seq<real>, suffix: int)
    requires SweptBy(points, prompt, cached, scores, checkLayer, ratios, suffix) && SweepShape(points)
    ensures ValidSweep(points)
    ensures SweepOk(WriteSweep(points)) && RebuiltAll(WriteSweep(points).points) == points
  {
    forall i | 0 <= i < |points|
      ensures ValidPoint(points[i]) && points[i].measurement.None?
    {
      assert PointFor(points[i], prompt, cached, scores, checkLayer, ratios[i], suffix);
    }
    ValidSweepReadable(points);
  }

  /** One score vector explains every point of the sweep. */
  ghost predicate Produces(scores: seq<real>, points: seq<SweepPoint>) {
    && (forall i :: 0 <= i < |points| ==> ValidPoint(points[i]) && |scores| == points[i].result.rowPlan.promptTokens)
    && (forall p :: 0 <= p < |scores| ==> 0.0 <= scores[p])
    && (forall i :: 0 <= i < |points| ==> Explains(scores, points[i].result))
  }

  ghost predicate Explains(scores: seq<real>, r: PolicyResult)
    requires 0.0 <= r.ratio <= 1.0 && r.suffix <= r.rowPlan.promptTokens
  {
    r.selected == SelectedRows(r.rowPlan.promptTokens, r.candidates, scores, r.ratio, r.suffix)
  }

  ghost predicate Nested(points: seq<SweepPoint>) {
    forall i, j, p :: 0 <= i < j < |points| && p in points[j].result.selected ==> p in points[i].result.selected
  }

  // ----- produced sweeps are nested

  lemma ProducedIsNested(scores: seq<real>, points: seq<SweepPoint>)
    requires ValidSweep(points) && Produces(scores, points)
    ensures Nested(points)
  {
    forall i, j, p | 0 <= i < j < |points| && p in points[j].result.selected
      ensures p in points[i].result.selected
    {
      var low, high := points[j].result, points[i].result;
      assert ContextOf(low) == ContextOf(points[0].result) == ContextOf(high);
      assert ValidPoint(points[i]) && ValidPoint(points[j]);
      assert Explains(scores, low) && Explains(scores, high);
      LowerRatioNested(low.rowPlan.promptTokens, low.candidates, scores, low.ratio, high.ratio, low.suffix);
    }
  }

  // ----- nested sweeps can be produced

  /** How many of the first `k` points select row `p`. */
  function Votes(points: seq<SweepPoint>, p: nat, k: nat): nat
    requires k <= |points|
  {
    if k == 0 then 0 else Votes(points, p, k - 1) + (if p in points[k - 1].result.selected then 1 else 0)
  }

  lemma {:induction false} VotesFor(points: seq<SweepPoint>, p: nat, i: nat, k: nat)
    requires Nested(points) && i < |points| && k <= |points|
    ensures p in points[i].result.selected && i < k ==> Votes(points, p, k) >= i + 1
    ensures p in points[i].result.selected && k <= i ==> Votes(points, p, k) == k
    ensures p !in points[i].result.selected ==> Votes(points, p, k) <= i
    ensures Votes(points, p, k) <= k
    decreases k
  {
    if k > 0 {
      VotesFor(points, p, i, k - 1);
    }
  }

  function VoteScores(points: seq<SweepPoint>, prompt: nat): seq<real> {
    seq(prompt, p requires 0 <= p < prompt => Votes(points, p, |points|) as real)
  }

  /** With a nested sweep, a row selected at point `i` has strictly more votes than any row
      that is not. */
  lemma SelectedOutvotes(points: seq<SweepPoint>, prompt: nat, i: nat, p: nat, q: nat)
    requires Nested(points) && i < |points| && p < prompt && q < prompt
    requires p in points[i].result.selected && q !in points[i].result.selected
    ensures Score(VoteScores(points, prompt), p) > Score(VoteScores(points, prompt), q)
  {
    VotesFor(points, p, i, |points|);
    VotesFor(points, q, i, |points|);
  }

  lemma SameMembers(a: seq<nat>, b: seq<nat>)
    requires Increasing(a) && Increasing(b) && forall p :: p in a <==> p in b
    ensures a == b
  {
    IncreasingDistinct(a);
    IncreasingDistinct(b);
    forall p: nat
      ensures multiset(a)[p] == multiset(b)[p]
    {
      DistinctCount(a, p);
      DistinctCount(b, p);
    }
    assert multiset(a) == multiset(b);
    SortedUnique(NatLe, a, b);
  }

  /** Every chosen row scores strictly higher than every row left out. */
  ghost predicate Outranks(eligible: seq<nat>, scores: seq<real>, chosen: seq<nat>) {
    && (forall p :: p in chosen ==> p in eligible)
    && forall p, q :: p in chosen && q in eligible && q !in chosen ==> Score(scores, p) > Score(scores, q)
  }

  lemma OutrankingSize(eligible: seq<nat>, scores: seq<real>, chosen: seq<nat>, p: nat)
    requires Outranks(eligible, scores, chosen) && Increasing(chosen) && p in eligible
    ensures p in chosen <==> |Better(ToSet(eligible), scores, p)| < |chosen|
  {
    IncreasingDistinct(chosen);
    DistinctSetSize(chosen);
    var better := Better(ToSet(eligible), scores, p);
    if p in chosen {
      assert better <= ToSet(chosen) - {p};
      SubsetSize(better, ToSet(chosen) - {p});
    } else {
      assert ToSet(chosen) <= better;
      SubsetSize(ToSet(chosen), better);
    }
  }

  /** A set that outranks everything else is exactly the top of the ranking. */
  lemma TopIsOutranking(eligible: seq<nat>, scores: seq<real>, chosen: seq<nat>)
    requires Increasing(eligible) && Increasing(chosen) && Outranks(eligible, scores, chosen)
    ensures TopRows(eligible, scores, |chosen|) == chosen
  {
    IncreasingDistinct(eligible);
    var top := TopRows(eligible, scores, |chosen|);
    forall p: nat
      ensures p in top <==> p in chosen
    {
      TopRowsMeaning(eligible, scores, |chosen|, p);
      if p in eligible {
        OutrankingSize(eligible, scores, chosen, p);
      }
    }
    TopRowsShape(eligible, scores, |chosen|);
    SameMembers(top, chosen);
  }

  lemma VotesOutrank(points: seq<SweepPoint>, prompt: nat, i: nat, eligible: seq<nat>)
    requires Nested(points) && i < |points|
    requires (forall q :: q in eligible ==> q < prompt)
      && (forall p :: p in points[i].result.selected ==> p in eligible)
    ensures Outranks(eligible, VoteScores(points, prompt), points[i].result.selected)
  {
    forall p, q | p in points[i].result.selected && q in eligible && q !in points[i].result.selected
      ensures Score(VoteScores(points, prompt), p) > Score(VoteScores(points, prompt), q)
    {
      SelectedOutvotes(points, prompt, i, p, q);
    }
  }

  lemma NestedPointExplained(points: seq<SweepPoint>, i: nat, prompt: nat)
    requires Nested(points) && i < |points| && IsPoint(points[i].result)
      && points[i].result.rowPlan.promptTokens == prompt
    ensures Explains(VoteScores(points, prompt), points[i].result)
  {
    var r := points[i].result;
    PointEligible(r);
    VotesOutrank(points, prompt, i, EligibleRows(r.candidates, prompt - r.suffix));
    OutrankingExplains(r, VoteScores(points, prompt));
  }

  lemma OutrankingExplains(r: PolicyResult, scores: seq<real>)
    requires IsPoint(r) && Outranks(EligibleRows(r.candidates, r.rowPlan.promptTokens - r.suffix), scores, r.selected)
    ensures Explains(scores, r)
  {
    PointEligible(r);
    TopIsOutranking(EligibleRows(r.candidates, r.rowPlan.promptTokens - r.suffix), scores, r.selected);
    TopExplains(r, scores, |r.selected|);
  }

  lemma TopExplains(r: PolicyResult, scores: seq<real>, k: nat)
    requires 0.0 <= r.ratio <= 1.0 && r.suffix <= r.rowPlan.promptTokens
    requires var eligible := EligibleRows(r.candidates, r.rowPlan.promptTokens - r.suffix);
      k == Budget(|eligible|, r.ratio) && r.selected == TopRows(eligible, scores, k)
    ensures Explains(scores, r)
  {
  }

  lemma PointEligible(r: PolicyResult)
    requires IsPoint(r)
    ensures var eligible := EligibleRows(r.candidates, r.rowPlan.promptTokens - r.suffix);
      && Increasing(eligible) && Increasing(r.selected)
      && (forall p :: p in eligible ==> p < r.rowPlan.promptTokens) && (forall p :: p in r.selected ==> p in eligible)
      && |r.selected| == Budget(|eligible|, r.ratio)
  {
    EligibleMeaning(r.candidates, r.rowPlan.promptTokens - r.suffix);
  }

  lemma NestedIsProduced(points: seq<SweepPoint>)
    requires ValidSweep(points) && Nested(points)
    ensures Produces(VoteScores(points, points[0].result.rowPlan.promptTokens), points)
  {
    var scores := VoteScores(points, points[0].result.rowPlan.promptTokens);
    forall i | 0 <= i < |points|
      ensures ValidPoint(points[i]) && |scores| == points[i].result.rowPlan.promptTokens
      ensures Explains(scores, points[i].result)
    {
      assert ContextOf(points[i].result) == ContextOf(points[0].result);
      assert ValidPoint(points[i]);
      NestedPointExplained(points, i, points[0].result.rowPlan.promptTokens);
    }
  }

  /** A readable sweep can come from one run of the policy exactly when a lower ratio never
      selects a row that a higher ratio left cached. */
  lemma ProducibleIffNested(points: seq<SweepPoint>)
    requires ValidSweep(points)
    ensures (exists scores :: Produces(scores, points)) <==> Nested(points)
  {
    if Nested(points) {
      NestedIsProduced(points);
    }
    forall scores | Produces(scores, points)
      ensures Nested(points)
    {
      ProducedIsNested(scores, points);
    }
  }

  // ----- a readable sweep that no scores explain

  function TwoRowResult(row: nat, ratio: real): PolicyResult
    requires row < 2
  {
    PolicyResult(0, ratio, 0, [Bounds(0, 2)], [Bounds(row, row + 1)], [row], UniformPlan(2, [Bounds(row, row + 1)]))
  }

  lemma TwoRowsEligible()
    ensures EligibleRows([Bounds(0, 2)], 2) == [0, 1]
  {
    var all: seq<TokenRange> := [Bounds(0, 2)];
    assert all[..0] == [];
    assert Rows(0, 1) == [0];
    assert Rows(0, 2) == [0, 1];
  }

  lemma TwoRowPoint(row: nat, ratio: real)
    requires row < 2 && 0.5 <= ratio < 1.0
    ensures IsPoint(TwoRowResult(row, ratio))
  {
    var r := TwoRowResult(row, ratio);
    UnionOfOne(Bounds(0, 2));
    UnionOfOne(Bounds(row, row + 1));
    TwoRowsEligible();
    assert Budget(2, ratio) == 1;
    assert r.rowPlan.Valid();
    assert forall p :: p in Union(r.recompute) <==> p in Forced(2, r.candidates, 0) + Positions(r.selected);
  }

  /** The reader accepts this sweep, yet no scores produce it. */
  lemma ReadableButNotProducible() returns (points: seq<SweepPoint>)
    ensures ValidSweep(points) && SweepOk(WriteSweep(points))
    ensures !exists scores :: Produces(scores, points)
  {
    points := [SweepPoint(TwoRowResult(0, 0.6), None), SweepPoint(TwoRowResult(1, 0.5), None)];
    TwoRowPoint(0, 0.6);
    TwoRowPoint(1, 0.5);
    assert points[0].result.rowPlan.promptTokens == points[1].result.rowPlan.promptTokens;
    ValidSweepReadable(points);
    assert 1 in points[1].result.selected && 1 !in points[0].result.selected;
    ProducibleIffNested(points);
  }
}
