/** Per-request counters: how they are derived, and the invariants they must satisfy. */
module Metrics {
  import opened Order
  import opened Ranges
  import opened Models
  import opened Planner
  import opened RequestPlans
  import opened ControlPlane

  datatype Counters = Counters(
    promptTokens: int,
    documentsRequested: int,
    documentsHit: int,
    tokensRequested: int,
    tokensFound: int,
    tokensLoaded: int,
    tokensRejected: int,
    tokensRecomputed: int,
    prefillAvoided: int)

  datatype InvariantCode =
    | NegativeCounter
    | DocumentHitsExceedRequests
    | ReusableTokensExceedPrompt
    | FoundTokensExceedRequested
    | LoadedTokensExceedFound
    | RejectedTokenReconciliationFailed
    | RecomputedTokensExceedPrompt
    | SavedTokensExceedPrompt
    | SavedTokenReconciliationFailed
    | FullRecomputeReportedSavings

  function Fields(c: Counters): seq<int> {
    [c.promptTokens, c.documentsRequested, c.documentsHit, c.tokensRequested, c.tokensFound,
     c.tokensLoaded, c.tokensRejected, c.tokensRecomputed, c.prefillAvoided]
  }

  /** Every counter invariant that fails, in the order the source reports them. */
  method ValidateCounters(c: Counters) returns (issues: seq<InvariantCode>)
    ensures issues == [] <==> Consistent(c)
  {
    issues := [];
    var fields := Fields(c);
    for i := 0 to |fields|
      invariant issues == [] <==> forall k :: 0 <= k < i ==> fields[k] >= 0
    {
      if fields[i] < 0 {
        issues := issues + [NegativeCounter];
      }
    }
    ghost var nonNegative := issues == [];
    assert nonNegative <==> NonNegative(c) by {
      assert fields[0] == c.promptTokens && fields[1] == c.documentsRequested && fields[2] == c.documentsHit;
      assert fields[3] == c.tokensRequested && fields[4] == c.tokensFound && fields[5] == c.tokensLoaded;
      assert fields[6] == c.tokensRejected && fields[7] == c.tokensRecomputed && fields[8] == c.prefillAvoided;
    }
    if c.documentsHit > c.documentsRequested {
      issues := issues + [DocumentHitsExceedRequests];
    }
    if c.tokensRequested > c.promptTokens {
      issues := issues + [ReusableTokensExceedPrompt];
    }
    if c.tokensFound > c.tokensRequested {
      issues := issues + [FoundTokensExceedRequested];
    }
    if c.tokensLoaded > c.tokensFound {
      issues := issues + [LoadedTokensExceedFound];
    }
    if c.tokensFound != c.tokensLoaded + c.tokensRejected {
      issues := issues + [RejectedTokenReconciliationFailed];
    }
    if c.tokensRecomputed > c.promptTokens {
      issues := issues + [RecomputedTokensExceedPrompt];
    }
    if c.prefillAvoided > c.promptTokens {
      issues := issues + [SavedTokensExceedPrompt];
    }
    if c.promptTokens - c.tokensRecomputed >= 0 && c.prefillAvoided != c.promptTokens - c.tokensRecomputed {
      issues := issues + [SavedTokenReconciliationFailed];
    }
    if c.tokensRecomputed == c.promptTokens && c.prefillAvoided != 0 {
      issues := issues + [FullRecomputeReportedSavings];
    }
  }

  ghost predicate NonNegative(c: Counters) {
    && c.promptTokens >= 0 && c.documentsRequested >= 0 && c.documentsHit >= 0
    && c.tokensRequested >= 0 && c.tokensFound >= 0 && c.tokensLoaded >= 0
    && c.tokensRejected >= 0 && c.tokensRecomputed >= 0 && c.prefillAvoided >= 0
  }

  /** What a consistent set of counters means. */
  ghost predicate Consistent(c: Counters) {
    && NonNegative(c)
    && c.documentsHit <= c.documentsRequested
    && c.tokensLoaded <= c.tokensFound <= c.tokensRequested <= c.promptTokens
    && c.tokensLoaded + c.tokensRejected == c.tokensFound
    && c.tokensRecomputed + c.prefillAvoided == c.promptTokens
  }

  // ----- derivation

  /** Targets of all candidates, selected or rejected. */
  function CandidateTargets(plan: MatchPlan): seq<TokenRange> {
    TargetRanges(plan.matches) + TargetRanges(RejectedCandidates(plan.rejected))
  }

  function DocumentHits(queries: seq<TokenSegment>, matches: seq<CandidateMatch>): nat {
    if queries == [] then 0
    else
      DocumentHits(queries[..|queries| - 1], matches)
      + (if exists i :: 0 <= i < |matches| && matches[i].target == queries[|queries| - 1] then 1 else 0)
  }

  function LoadedTokens(matches: seq<CandidateMatch>, loaded: seq<int>): nat
    requires forall i :: 0 <= i < |loaded| ==> 0 <= loaded[i] < |matches|
  {
    if loaded == [] then 0
    else LoadedTokens(matches, loaded[..|loaded| - 1]) + |matches[loaded[|loaded| - 1]].target.tokens|
  }

  ghost predicate Settled(s: State) {
    Reachable(s) && s.phase in {WorkerValidated, Finished}
  }

  method DeriveCounters(s: State) returns (r: Result<Counters>)
    requires Reachable(s)
    ensures r.Ok? <==> s.phase in {WorkerValidated, Finished}
    ensures r.Err? ==> r.error == LifecycleMisuse
    ensures r.Ok? ==> Consistent(r.value)
    ensures r.Ok? ==>
      && (forall i :: 0 <= i < |s.validation.value.loaded| ==>
            0 <= s.validation.value.loaded[i] < |s.plan.matchPlan.matches|)
      && r.value.tokensLoaded == LoadedTokens(s.plan.matchPlan.matches, s.validation.value.loaded)
      && r.value.documentsRequested == |s.plan.queries|
      && r.value.tokensFound == |Union(CandidateTargets(s.plan.matchPlan))|
      && r.value.tokensRequested == |Union(SegmentRanges(s.plan.queries))|
      && r.value.documentsHit == DocumentHits(s.plan.queries, s.plan.matchPlan.matches)
      && r.value.tokensRecomputed == r.value.promptTokens == s.plan.promptTokens
      && r.value.prefillAvoided == 0
  {
    if s.phase !in {WorkerValidated, Finished} || s.validation.None? {
      return Err(LifecycleMisuse);
    }
    var matches, receipt := s.plan.matchPlan.matches, s.validation.value;
    PartitionFacts(receipt, |matches|);
    var loaded := LoadedTokens(matches, receipt.loaded);
    var found := CoveredTokenCount(CandidateTargets(s.plan.matchPlan));
    LoadedWithinFound(s);
    var rejected := found - loaded;
    if rejected < 0 || |receipt.loaded| + |receipt.rejected| != |matches| {
      return Err(InvalidWorkerResult);
    }
    CountsBounded(s.plan);
    HitsBounded(s.plan.queries, matches);
    r := Ok(Counters(s.plan.promptTokens, |s.plan.queries|, DocumentHits(s.plan.queries, matches),
                     s.plan.matchPlan.requestedTokens, found, loaded, rejected, s.plan.promptTokens, 0));
  }

  lemma PartitionFacts(r: Receipt, n: nat)
    requires Partitions(r, n)
    ensures forall i :: 0 <= i < |r.loaded| ==> 0 <= r.loaded[i] < n
    ensures |r.loaded| + |r.rejected| == n
  {
    forall i | 0 <= i < |r.loaded|
      ensures 0 <= r.loaded[i] < n
    {
      assert r.loaded[i] in ToSet(r.loaded);
    }
    DistinctSetSize(r.loaded);
    DistinctSetSize(r.rejected);
    assert MatchIndexes(n) == Interval(0, n);
    IntervalSize(0, n);
  }

  /** Accepted matches lie left to right without overlap. */
  lemma MatchesOrdered(p: RequestPlan)
    requires ValidPlan(p)
    ensures Ordered(TargetRanges(p.matchPlan.matches))
  {
    var ms := p.matchPlan.matches;
    forall i, j | 0 <= i < j < |ms|
      ensures ms[i].target.range.end <= ms[j].target.range.start
    {
      assert !ms[j].target.range.Overlaps(ms[i].target.range) && SegmentLe(ms[i].target, ms[j].target);
      SegmentLeStarts(ms[i].target, ms[j].target);
    }
  }

  /** The loaded matches, as ranges in receipt order. */
  ghost function LoadedRanges(matches: seq<CandidateMatch>, loaded: seq<int>): (rs: seq<TokenRange>)
    requires forall i :: 0 <= i < |loaded| ==> 0 <= loaded[i] < |matches|
    ensures |rs| == |loaded|
  {
    seq(|loaded|, i requires 0 <= i < |loaded| => matches[loaded[i]].target.range)
  }

  lemma {:induction false} LoadedIsSum(matches: seq<CandidateMatch>, loaded: seq<int>)
    requires forall i :: 0 <= i < |loaded| ==> 0 <= loaded[i] < |matches|
    ensures LoadedTokens(matches, loaded) == TokenSum(LoadedRanges(matches, loaded))
  {
    if loaded != [] {
      var front := loaded[..|loaded| - 1];
      LoadedIsSum(matches, front);
      var rs := LoadedRanges(matches, loaded);
      assert rs[..|rs| - 1] == LoadedRanges(matches, front);
    }
  }

  /** Loaded matches keep the order of the matches, so their targets do not overlap. */
  lemma LoadedApart(matches: seq<CandidateMatch>, loaded: seq<int>)
    requires forall i :: 0 <= i < |loaded| ==> 0 <= loaded[i] < |matches|
    requires SortedBy(IntLe, loaded) && Distinct(loaded) && Ordered(TargetRanges(matches))
    ensures Disjoint(LoadedRanges(matches, loaded))
  {
    var rs, targets := LoadedRanges(matches, loaded), TargetRanges(matches);
    forall i, j | 0 <= i < j < |rs|
      ensures rs[i].end <= rs[j].start
    {
      assert IntLe(loaded[i], loaded[j]) && loaded[i] != loaded[j];
      assert targets[loaded[i]].end <= targets[loaded[j]].start;
    }
  }

  lemma LoadedAreFound(plan: MatchPlan, loaded: seq<int>)
    requires forall i :: 0 <= i < |loaded| ==> 0 <= loaded[i] < |plan.matches|
    ensures forall r :: r in LoadedRanges(plan.matches, loaded) ==> r in CandidateTargets(plan)
  {
    var rs, targets := LoadedRanges(plan.matches, loaded), TargetRanges(plan.matches);
    forall r | r in rs
      ensures r in CandidateTargets(plan)
    {
      var i :| 0 <= i < |rs| && rs[i] == r;
      assert targets[loaded[i]] == r;
    }
  }

  /** Loaded tokens are distinct found positions, so the rejected count is never negative. */
  lemma LoadedWithinFound(s: State)
    requires Settled(s)
    ensures forall i :: 0 <= i < |s.validation.value.loaded| ==>
              0 <= s.validation.value.loaded[i] < |s.plan.matchPlan.matches|
    ensures LoadedTokens(s.plan.matchPlan.matches, s.validation.value.loaded)
      <= |Union(CandidateTargets(s.plan.matchPlan))|
  {
    var matches, loaded := s.plan.matchPlan.matches, s.validation.value.loaded;
    PartitionFacts(s.validation.value, |matches|);
    LoadedIsSum(matches, loaded);
    MatchesOrdered(s.plan);
    var rs := LoadedRanges(matches, loaded);
    LoadedApart(matches, loaded);
    SumIsUnionSize(rs);
    LoadedAreFound(s.plan.matchPlan, loaded);
    UnionOfSame(rs, CandidateTargets(s.plan.matchPlan));
    SubsetSize(Union(rs), Union(CandidateTargets(s.plan.matchPlan)));
  }

  /** Found positions are requested positions, and requested positions are prompt positions. */
  lemma CountsBounded(p: RequestPlan)
    requires ValidPlan(p)
    ensures |Union(CandidateTargets(p.matchPlan))| <= |Union(SegmentRanges(p.queries))| <= p.promptTokens
  {
    var targets, requested := CandidateTargets(p.matchPlan), SegmentRanges(p.queries);
    forall r | r in targets
      ensures r in requested
    {
      var i :| 0 <= i < |targets| && targets[i] == r;
      CandidateRequested(p, i);
    }
    UnionOfSame(targets, requested);
    SubsetSize(Union(targets), Union(requested));
    UnionBounded(requested, p.promptTokens);
  }

  lemma CandidateRequested(p: RequestPlan, i: nat)
    requires ValidPlan(p) && i < |CandidateTargets(p.matchPlan)|
    ensures CandidateTargets(p.matchPlan)[i] in SegmentRanges(p.queries)
  {
    var n := |p.matchPlan.matches|;
    var target := if i < n then p.matchPlan.matches[i].target else p.matchPlan.rejected[i - n].candidate.target;
    assert target in p.queries by {
      if i < n {
        assert MatchOk(p.queries, p.matchPlan.matches[i]);
      }
    }
    var k :| 0 <= k < |p.queries| && p.queries[k] == target;
    assert SegmentRanges(p.queries)[k] == target.range;
  }

  lemma {:induction false} HitsBounded(queries: seq<TokenSegment>, matches: seq<CandidateMatch>)
    ensures DocumentHits(queries, matches) <= |queries|
  {
    if queries != [] {
      HitsBounded(queries[..|queries| - 1], matches);
    }
  }
}
