/** What every returned plan guarantees. */
module PlanProperties {
  import opened Order
  import opened Ranges
  import opened Models
  import opened IntervalSelection
  import opened Planner

  lemma {:induction false} GatePartition(ns: CacheNamespace, fp: Fingerprinter, cs: seq<CandidateMatch>)
    ensures multiset(Verified(ns, fp, cs)) + multiset(RejectedCandidates(FailedGate(ns, fp, cs))) == multiset(cs)
  {
    if cs != [] {
      var front, c := cs[..|cs| - 1], cs[|cs| - 1];
      GatePartition(ns, fp, front);
      GateStep(ns, fp, front, c);
      assert cs == front + [c];
    }
  }

  lemma GateStep(ns: CacheNamespace, fp: Fingerprinter, front: seq<CandidateMatch>, c: CandidateMatch)
    ensures multiset(Verified(ns, fp, front + [c])) + multiset(RejectedCandidates(FailedGate(ns, fp, front + [c])))
         == multiset(Verified(ns, fp, front)) + multiset(RejectedCandidates(FailedGate(ns, fp, front))) + multiset{c}
  {
    VerifiedNext(ns, fp, front, c);
    match VerifyCandidate(ns, fp, c) {
      case Some(reason) =>
        RejectedAppend(FailedGate(ns, fp, front), [RejectedCandidate(c, reason)]);
        assert RejectedCandidates([RejectedCandidate(c, reason)]) == [c];
      case None =>
        assert FailedGate(ns, fp, front + [c]) == FailedGate(ns, fp, front);
    }
  }

  lemma RejectedAppend(a: seq<RejectedCandidate>, b: seq<RejectedCandidate>)
    ensures RejectedCandidates(a + b) == RejectedCandidates(a) + RejectedCandidates(b)
  {
  }

  /** Matches and rejections together are exactly the looked-up candidates. */
  lemma EveryCandidateAccounted(ns: CacheNamespace, queries: seq<TokenSegment>, fp: Fingerprinter, lookup: RecordLookup,
                                chosen: seq<nat>, plan: MatchPlan)
    requires PlanFor(ns, queries, fp, lookup, chosen, plan)
    ensures multiset(plan.matches) + multiset(RejectedCandidates(plan.rejected))
         == multiset(Candidates(ns, queries, fp, lookup))
  {
    var all := Candidates(ns, queries, fp, lookup);
    var verified := Verified(ns, fp, all);
    ChainFacts(ItemsOf(verified), chosen);
    PickIsFilter(verified, chosen);
    var others := Unchosen(|verified|, chosen);
    FilterIndexesPartition(verified, ToSet(chosen), others);
    GatePartition(ns, fp, all);
    RejectedAppend(FailedGate(ns, fp, all), Overlapping(FilterIndexes(verified, others)));
    assert RejectedCandidates(Overlapping(FilterIndexes(verified, others))) == FilterIndexes(verified, others);
  }

  lemma {:induction false} CandidateTargets(ns: CacheNamespace, queries: seq<TokenSegment>, fp: Fingerprinter,
                                            lookup: RecordLookup, c: CandidateMatch)
    requires c in Candidates(ns, queries, fp, lookup)
    ensures c.target in queries
    ensures c.queryFingerprint == fp(ns, c.target.tokens)
    ensures c.record in lookup(ns, c.queryFingerprint)
  {
    var query := queries[|queries| - 1];
    if c !in CandidatesFor(query, fp(ns, query.tokens), lookup(ns, fp(ns, query.tokens))) {
      CandidateTargets(ns, queries[..|queries| - 1], fp, lookup, c);
    }
  }

  /** A match has the query's exact tokens, whatever the fingerprint function does. */
  lemma MatchesAreExact(ns: CacheNamespace, queries: seq<TokenSegment>, fp: Fingerprinter, lookup: RecordLookup,
                        chosen: seq<nat>, plan: MatchPlan, m: CandidateMatch)
    requires PlanFor(ns, queries, fp, lookup, chosen, plan) && m in plan.matches
    ensures m.target in queries
    ensures m.record.tokens == m.target.tokens
    ensures m.record.namespace == ns
    ensures m.record.fingerprint == m.queryFingerprint == fp(ns, m.target.tokens)
  {
    var all := Candidates(ns, queries, fp, lookup);
    var i :| 0 <= i < |plan.matches| && plan.matches[i] == m;
    assert m in Verified(ns, fp, all);
    FilterMembers(c => Passes(ns, fp, c), all, m);
    CandidateTargets(ns, queries, fp, lookup, m);
  }

  lemma MatchesInOrder(ns: CacheNamespace, queries: seq<TokenSegment>, fp: Fingerprinter, lookup: RecordLookup,
                       chosen: seq<nat>, plan: MatchPlan)
    requires PlanFor(ns, queries, fp, lookup, chosen, plan)
    ensures Ordered(TargetRanges(plan.matches))
  {
    var verified := Verified(ns, fp, Candidates(ns, queries, fp, lookup));
    ChainFacts(ItemsOf(verified), chosen);
    forall i, j | 0 <= i < j < |plan.matches|
      ensures plan.matches[i].target.range.end <= plan.matches[j].target.range.start
    {
      assert ItemsOf(verified)[chosen[i]].end <= ItemsOf(verified)[chosen[j]].start;
    }
  }

  /** Matched tokens are distinct requested positions. */
  lemma MatchedWithinRequested(ns: CacheNamespace, queries: seq<TokenSegment>, fp: Fingerprinter, lookup: RecordLookup,
                               chosen: seq<nat>, plan: MatchPlan)
    requires PlanFor(ns, queries, fp, lookup, chosen, plan)
    ensures MatchedTokens(plan) == |Union(TargetRanges(plan.matches))| <= plan.requestedTokens
  {
    MatchesInOrder(ns, queries, fp, lookup, chosen, plan);
    var targets, requested := TargetRanges(plan.matches), SegmentRanges(queries);
    SumIsUnionSize(targets);
    forall r | r in targets
      ensures r in requested
    {
      var i :| 0 <= i < |targets| && targets[i] == r;
      MatchesAreExact(ns, queries, fp, lookup, chosen, plan, plan.matches[i]);
      var k :| 0 <= k < |queries| && queries[k] == plan.matches[i].target;
      assert requested[k] == r;
    }
    UnionOfSame(targets, requested);
    SubsetSize(Union(targets), Union(requested));
  }

  /** The plan's matched tokens are the value of the best selection. */
  lemma {:induction false} MatchedIsSelection(verified: seq<CandidateMatch>, chosen: seq<nat>)
    requires IsChain(ItemsOf(verified), chosen)
    requires forall i :: 0 <= i < |chosen| ==> chosen[i] < |verified|
    ensures TokenSum(TargetRanges(Pick(verified, chosen))) == Tokens(ItemsOf(verified), chosen)
  {
    if chosen != [] {
      var front := chosen[..|chosen| - 1];
      MatchedIsSelection(verified, front);
      var ranges := TargetRanges(Pick(verified, chosen));
      assert ranges[..|ranges| - 1] == TargetRanges(Pick(verified, front));
    }
  }

  lemma {:induction false} FailedGateMembers(
      ns: CacheNamespace, fp: Fingerprinter, cs: seq<CandidateMatch>, r: RejectedCandidate)
    requires r in FailedGate(ns, fp, cs)
    ensures r.candidate in cs && VerifyCandidate(ns, fp, r.candidate) == Some(r.reason)
  {
    var front, c := cs[..|cs| - 1], cs[|cs| - 1];
    assert cs == front + [c];
    VerifiedNext(ns, fp, front, c);
    if r in FailedGate(ns, fp, front) {
      FailedGateMembers(ns, fp, front, r);
    }
  }

  /** Every rejection is explained: a failed gate, or a real overlap with a match. */
  lemma RejectionsExplained(ns: CacheNamespace, queries: seq<TokenSegment>, fp: Fingerprinter, lookup: RecordLookup,
                            chosen: seq<nat>, plan: MatchPlan, r: RejectedCandidate)
    requires PlanFor(ns, queries, fp, lookup, chosen, plan) && r in plan.rejected
    ensures r.candidate.target in queries
    ensures r.reason != OverlapsSelectedMatch ==> VerifyCandidate(ns, fp, r.candidate) == Some(r.reason)
    ensures r.reason == OverlapsSelectedMatch ==>
      && Passes(ns, fp, r.candidate)
      && exists m :: m in plan.matches && m.target.range.Overlaps(r.candidate.target.range)
  {
    var all := Candidates(ns, queries, fp, lookup);
    var verified := Verified(ns, fp, all);
    var others := Unchosen(|verified|, chosen);
    if r in FailedGate(ns, fp, all) {
      FailedGateMembers(ns, fp, all, r);
    } else {
      var left := FilterIndexes(verified, others);
      assert r in Overlapping(left);
      assert r.candidate in left;
      var i := FilterIndexesMember(verified, others, r.candidate);
      FilterMembers(c => Passes(ns, fp, c), all, r.candidate);
      LeftOutOverlaps(ItemsOf(verified), chosen, i);
      var j :| j in ToSet(chosen) && j < |verified| && !Apart(ItemsOf(verified), i, j);
      var k :| 0 <= k < |chosen| && chosen[k] == j;
      assert plan.matches[k] == verified[j] && ItemsOf(verified)[j] == ItemOf(verified[j]);
      assert ItemsOf(verified)[i] == ItemOf(r.candidate);
    }
    CandidateTargets(ns, queries, fp, lookup, r.candidate);
  }
}
