/** The checks a planner result must pass before the control plane records it. */
module RequestPlans {
  import opened Order
  import opened Ranges
  import opened Models
  import opened Planner
  import opened PlanProperties

  datatype RequestPlan = RequestPlan(
    requestId: string,
    promptTokens: int,
    queries: seq<TokenSegment>,
    matchPlan: MatchPlan)

  function SegmentKey(s: TokenSegment): SortKey { [[s.range.start], [s.range.end], s.tokens] }

  predicate SegmentLe(a: TokenSegment, b: TokenSegment) { KeyLe(SegmentKey(a), SegmentKey(b)) }

  lemma SegmentOrder()
    ensures TotalOrder(SegmentLe)
  {
    KeyOrder();
    forall a: TokenSegment, b: TokenSegment
      ensures SegmentLe(a, b) || SegmentLe(b, a)
      ensures SegmentLe(a, b) && SegmentLe(b, a) ==> a == b
    {
      if SegmentLe(a, b) && SegmentLe(b, a) {
        assert SegmentKey(a) == SegmentKey(b);
        assert SegmentKey(a)[0][0] == SegmentKey(b)[0][0] && SegmentKey(a)[1][0] == SegmentKey(b)[1][0];
        assert SegmentKey(a)[2] == SegmentKey(b)[2];
      }
    }
    forall a: TokenSegment, b: TokenSegment, c: TokenSegment | SegmentLe(a, b) && SegmentLe(b, c)
      ensures SegmentLe(a, c)
    {
      assert KeyLe(SegmentKey(a), SegmentKey(b)) && KeyLe(SegmentKey(b), SegmentKey(c));
    }
  }

  lemma SegmentLeStarts(a: TokenSegment, b: TokenSegment)
    ensures SegmentLe(a, b) ==> a.range.start <= b.range.start
    ensures a.range.start < b.range.start ==> SegmentLe(a, b)
  {
    assert SegmentKey(a)[0] == [a.range.start] && SegmentKey(b)[0] == [b.range.start];
    NumberText(a.range.start, b.range.start);
  }

  // ----- what is acceptable

  ghost predicate MatchOk(queries: seq<TokenSegment>, m: CandidateMatch) {
    && m.target in queries
    && m.target.tokens == m.record.tokens
    && m.queryFingerprint == m.record.fingerprint
  }

  ghost predicate MatchesOk(queries: seq<TokenSegment>, matches: seq<CandidateMatch>) {
    && (forall i :: 0 <= i < |matches| ==> MatchOk(queries, matches[i]))
    && (forall i, j :: 0 <= i < j < |matches| ==>
          !matches[j].target.range.Overlaps(matches[i].target.range) && SegmentLe(matches[i].target, matches[j].target))
  }

  ghost predicate RejectionsOk(queries: seq<TokenSegment>, rejected: seq<RejectedCandidate>) {
    forall i :: 0 <= i < |rejected| ==> rejected[i].candidate.target in queries
  }

  /** Everything a request plan's constructor insists on. */
  ghost predicate Acceptable(requestId: string, promptTokens: int, queries: seq<TokenSegment>, plan: MatchPlan) {
    && requestId != "" && promptTokens >= 0
    && Distinct(queries)
    && (forall i :: 0 <= i < |queries| ==> queries[i].range.end <= promptTokens)
    && plan.requestedTokens == |Union(SegmentRanges(queries))|
    && MatchedTokens(plan) <= plan.requestedTokens
    && MatchesOk(queries, plan.matches)
    && RejectionsOk(queries, plan.rejected)
  }

  /** The match loop: each target against the queries, the earlier ranges and the previous key. */
  method CheckMatches(queries: seq<TokenSegment>, matches: seq<CandidateMatch>) returns (ok: bool)
    ensures ok <==> MatchesOk(queries, matches)
  {
    var matchedRanges: seq<TokenRange> := [];
    SegmentOrder();
    for i := 0 to |matches|
      invariant |matchedRanges| == i
      invariant forall k :: 0 <= k < i ==> matchedRanges[k] == matches[k].target.range
      invariant MatchesOk(queries, matches[..i])
    {
      var m := matches[i];
      MatchesNext(queries, matches, i);
      if m.target !in queries || m.target.tokens != m.record.tokens || m.queryFingerprint != m.record.fingerprint {
        return false;
      }
      if exists k :: 0 <= k < |matchedRanges| && m.target.range.Overlaps(matchedRanges[k]) {
        return false;
      }
      if i > 0 && !SegmentLe(matches[i - 1].target, m.target) {
        return false;
      }
      matchedRanges := matchedRanges + [m.target.range];
    }
    TakeAll(matches);
    return true;
  }

  lemma MatchesNext(queries: seq<TokenSegment>, matches: seq<CandidateMatch>, i: nat)
    requires i < |matches| && MatchesOk(queries, matches[..i])
    ensures MatchesOk(queries, matches) ==> MatchesOk(queries, matches[..i + 1])
    ensures MatchesOk(queries, matches[..i + 1]) <==>
      && MatchOk(queries, matches[i])
      && (forall k :: 0 <= k < i ==> !matches[i].target.range.Overlaps(matches[k].target.range))
      && (i > 0 ==> SegmentLe(matches[i - 1].target, matches[i].target))
  {
    TakeNext(matches, i);
    var now := matches[..i + 1];
    assert forall k :: 0 <= k < i ==> now[k] == matches[k] == matches[..i][k];
    assert now[i] == matches[i];
    if i > 0 && SegmentLe(matches[i - 1].target, matches[i].target) {
      forall k | 0 <= k < i
        ensures SegmentLe(matches[k].target, matches[i].target)
      {
        SegmentOrder();
        if k < i - 1 {
          assert SegmentLe(matches[..i][k].target, matches[..i][i - 1].target);
        }
      }
    }
  }

  datatype PlanResult = Accepted(plan: RequestPlan) | InvalidRequestPlan

  method MakeRequestPlan(requestId: string, promptTokens: int, segments: seq<TokenSegment>, plan: MatchPlan)
      returns (r: PlanResult)
    ensures r.Accepted? <==> Acceptable(requestId, promptTokens, segments, plan)
    ensures r.Accepted? ==> r.plan == RequestPlan(requestId, promptTokens, SortBy(SegmentLe, segments), plan)
    ensures r.Accepted? ==> ValidPlan(r.plan)
  {
    if requestId == "" || promptTokens < 0 {
      return InvalidRequestPlan;
    }
    var queries := SortBy(SegmentLe, segments);
    SortedQueries(requestId, promptTokens, segments, plan);
    var distinct := |ToSet(queries)| == |queries|;
    SetSizeDistinct(queries);
    if !distinct || exists i :: 0 <= i < |queries| && queries[i].range.end > promptTokens {
      return InvalidRequestPlan;
    }
    var covered := CoveredTokenCount(SegmentRanges(queries));
    if plan.requestedTokens != covered || MatchedTokens(plan) > plan.requestedTokens {
      return InvalidRequestPlan;
    }
    var ok := CheckMatches(queries, plan.matches);
    if !ok || exists i :: 0 <= i < |plan.rejected| && plan.rejected[i].candidate.target !in queries {
      return InvalidRequestPlan;
    }
    r := Accepted(RequestPlan(requestId, promptTokens, queries, plan));
  }

  /** A recorded plan is acceptable as it stands. */
  ghost predicate ValidPlan(p: RequestPlan) {
    Acceptable(p.requestId, p.promptTokens, p.queries, p.matchPlan)
  }

  lemma SetSizeDistinct<T(!new)>(s: seq<T>)
    ensures |ToSet(s)| == |s| <==> Distinct(s)
  {
    if Distinct(s) {
      DistinctSetSize(s);
    } else {
      var i, j :| 0 <= i < j < |s| && s[i] == s[j];
      var rest := s[..j] + s[j + 1..];
      forall x | x in ToSet(s)
        ensures x in ToSet(rest)
      {
        var k :| 0 <= k < |s| && s[k] == x;
        if k == j {
          assert rest[i] == x;
        } else if k < j {
          assert rest[k] == x;
        } else {
          assert rest[k - 1] == x;
        }
      }
      SubsetSize(ToSet(s), ToSet(rest));
      SetNoLarger(rest);
    }
  }

  lemma {:induction false} SetNoLarger<T>(s: seq<T>)
    ensures |ToSet(s)| <= |s|
  {
    if s != [] {
      SetNoLarger(s[..|s| - 1]);
      assert ToSet(s) == ToSet(s[..|s| - 1]) + {s[|s| - 1]};
    }
  }

  /** Sorting the queries changes none of the checks. */
  lemma SortedQueries(requestId: string, promptTokens: int, segments: seq<TokenSegment>, plan: MatchPlan)
    ensures Acceptable(requestId, promptTokens, segments, plan)
       <==> Acceptable(requestId, promptTokens, SortBy(SegmentLe, segments), plan)
  {
    var queries := SortBy(SegmentLe, segments);
    SortElements(SegmentLe, segments);
    SortMultiset(SegmentLe, segments);
    if Distinct(segments) {
      DistinctPermutation(segments, queries);
    }
    if Distinct(queries) {
      DistinctPermutation(queries, segments);
    }
    SameSegments(promptTokens, segments, queries);
    SameSegments(promptTokens, queries, segments);
    assert Union(SegmentRanges(segments)) == Union(SegmentRanges(queries));
  }

  lemma SameSegments(promptTokens: int, a: seq<TokenSegment>, b: seq<TokenSegment>)
    requires forall s :: s in a ==> s in b
    ensures Union(SegmentRanges(a)) <= Union(SegmentRanges(b))
    ensures (forall i :: 0 <= i < |b| ==> b[i].range.end <= promptTokens)
        ==> (forall i :: 0 <= i < |a| ==> a[i].range.end <= promptTokens)
  {
    forall i | 0 <= i < |a|
      ensures a[i].range in SegmentRanges(b)
    {
      assert a[i] in b;
      var j :| 0 <= j < |b| && b[j] == a[i];
      assert SegmentRanges(b)[j] == a[i].range;
    }
    UnionOfSame(SegmentRanges(a), SegmentRanges(b));
    forall i | 0 <= i < |a|
      ensures (forall i :: 0 <= i < |b| ==> b[i].range.end <= promptTokens) ==> a[i].range.end <= promptTokens
    {
      assert a[i] in b;
    }
  }

  /** A planner result for distinct queries inside the prompt is always acceptable. */
  lemma PlannerResultAcceptable(ns: CacheNamespace, queries: seq<TokenSegment>, fp: Fingerprinter, lookup: RecordLookup,
                                chosen: seq<nat>, plan: MatchPlan, requestId: string, promptTokens: nat)
    requires PlanFor(ns, queries, fp, lookup, chosen, plan)
    requires requestId != "" && Distinct(queries)
    requires forall i :: 0 <= i < |queries| ==> queries[i].range.end <= promptTokens
    ensures Acceptable(requestId, promptTokens, queries, plan)
  {
    MatchedWithinRequested(ns, queries, fp, lookup, chosen, plan);
    MatchesInOrder(ns, queries, fp, lookup, chosen, plan);
    forall i | 0 <= i < |plan.matches|
      ensures MatchOk(queries, plan.matches[i])
    {
      MatchesAreExact(ns, queries, fp, lookup, chosen, plan, plan.matches[i]);
    }
    var ranges := TargetRanges(plan.matches);
    forall i, j | 0 <= i < j < |plan.matches|
      ensures !plan.matches[j].target.range.Overlaps(plan.matches[i].target.range)
      ensures SegmentLe(plan.matches[i].target, plan.matches[j].target)
    {
      assert ranges[i].end <= ranges[j].start && ranges[i].start < ranges[i].end;
      SegmentLeStarts(plan.matches[i].target, plan.matches[j].target);
    }
    forall i | 0 <= i < |plan.rejected|
      ensures plan.rejected[i].candidate.target in queries
    {
      RejectionsExplained(ns, queries, fp, lookup, chosen, plan, plan.rejected[i]);
    }
  }
}
