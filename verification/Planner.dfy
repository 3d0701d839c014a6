/** Exact-token verified cache-match planning. */
module Planner {
  import opened Order
  import opened Ranges
  import opened Models
  import opened IntervalSelection

  datatype RejectionReason = NamespaceMismatch | FingerprintMismatch | TokenMismatch | OverlapsSelectedMatch
  datatype RejectedCandidate = RejectedCandidate(candidate: CandidateMatch, reason: RejectionReason)
  datatype MatchPlan = MatchPlan(
    matches: seq<CandidateMatch>,
    rejected: seq<RejectedCandidate>,
    requestedTokens: nat)

  function TargetRanges(cs: seq<CandidateMatch>): (rs: seq<TokenRange>)
    ensures |rs| == |cs|
  {
    seq(|cs|, i requires 0 <= i < |cs| => cs[i].target.range)
  }

  function SegmentRanges(ss: seq<TokenSegment>): (rs: seq<TokenRange>)
    ensures |rs| == |ss|
  {
    seq(|ss|, i requires 0 <= i < |ss| => ss[i].range)
  }

  function RejectedCandidates(rs: seq<RejectedCandidate>): (cs: seq<CandidateMatch>)
    ensures |cs| == |rs|
  {
    seq(|rs|, i requires 0 <= i < |rs| => rs[i].candidate)
  }

  function MatchedTokens(plan: MatchPlan): nat { TokenSum(TargetRanges(plan.matches)) }

  // ----- verification

  /** The first gate a candidate fails, if any. */
  function VerifyCandidate(ns: CacheNamespace, fp: Fingerprinter, c: CandidateMatch): Option<RejectionReason> {
    if c.record.namespace != ns then Some(NamespaceMismatch)
    else if c.record.fingerprint != c.queryFingerprint then Some(FingerprintMismatch)
    else if c.record.tokens != c.target.tokens then Some(TokenMismatch)
    else if fp(c.record.namespace, c.record.tokens) != c.record.fingerprint then Some(FingerprintMismatch)
    else None
  }

  /** Everything the looked-up records offer for the queries, in lookup order. */
  function Candidates(
      ns: CacheNamespace, queries: seq<TokenSegment>, fp: Fingerprinter, lookup: RecordLookup): seq<CandidateMatch>
  {
    if queries == [] then []
    else
      var query := queries[|queries| - 1];
      var f := fp(ns, query.tokens);
      Candidates(ns, queries[..|queries| - 1], fp, lookup) + CandidatesFor(query, f, lookup(ns, f))
  }

  function CandidatesFor(
      query: TokenSegment, f: SegmentFingerprint, bucket: seq<CacheRecord>): (cs: seq<CandidateMatch>)
    ensures |cs| == |bucket|
  {
    seq(|bucket|, i requires 0 <= i < |bucket| => CandidateMatch(query, f, bucket[i]))
  }

  predicate Passes(ns: CacheNamespace, fp: Fingerprinter, c: CandidateMatch) { VerifyCandidate(ns, fp, c).None? }

  function Verified(ns: CacheNamespace, fp: Fingerprinter, cs: seq<CandidateMatch>): seq<CandidateMatch> {
    Filter(c => Passes(ns, fp, c), cs)
  }

  function FailedGate(ns: CacheNamespace, fp: Fingerprinter, cs: seq<CandidateMatch>): seq<RejectedCandidate> {
    if cs == [] then []
    else
      var c := cs[|cs| - 1];
      FailedGate(ns, fp, cs[..|cs| - 1])
      + (match VerifyCandidate(ns, fp, c)
         case Some(reason) => [RejectedCandidate(c, reason)]
         case None => [])
  }

  function Overlapping(cs: seq<CandidateMatch>): (rs: seq<RejectedCandidate>)
    ensures |rs| == |cs|
  {
    seq(|cs|, i requires 0 <= i < |cs| => RejectedCandidate(cs[i], OverlapsSelectedMatch))
  }

  // ----- sort keys

  function ItemOf(c: CandidateMatch): Item {
    Item(c.target.range.start, c.target.range.end,
         [CodePoints(c.record.cacheKey), [c.record.sourceRange.start], [c.record.sourceRange.end]])
  }

  function ItemsOf(cs: seq<CandidateMatch>): (items: seq<Item>)
    ensures |items| == |cs| && NonEmptyItems(items)
  {
    seq(|cs|, i requires 0 <= i < |cs| => ItemOf(cs[i]))
  }

  predicate CandidateLe(a: CandidateMatch, b: CandidateMatch) { KeyLe(ItemOf(a).Key(), ItemOf(b).Key()) }

  lemma CandidateOrder()
    ensures TotalPreorder(CandidateLe)
  {
    KeyOrder();
    forall a: CandidateMatch, b: CandidateMatch
      ensures CandidateLe(a, b) || CandidateLe(b, a)
    {
    }
    forall a: CandidateMatch, b: CandidateMatch, c: CandidateMatch | CandidateLe(a, b) && CandidateLe(b, c)
      ensures CandidateLe(a, c)
    {
      assert KeyLe(ItemOf(a).Key(), ItemOf(b).Key()) && KeyLe(ItemOf(b).Key(), ItemOf(c).Key());
    }
  }

  // ----- the plan

  /** `plan` is what the planner must return when the selection picks the indexes `chosen`
      among the verified candidates. */
  ghost predicate PlanFor(ns: CacheNamespace, queries: seq<TokenSegment>, fp: Fingerprinter, lookup: RecordLookup,
                          chosen: seq<nat>, plan: MatchPlan)
  {
    var all := Candidates(ns, queries, fp, lookup);
    var verified := Verified(ns, fp, all);
    && IsBest(ItemsOf(verified), chosen)
    && (forall i :: 0 <= i < |chosen| ==> chosen[i] < |verified|)
    && plan.matches == Pick(verified, chosen)
    && plan.rejected == FailedGate(ns, fp, all)
                        + Overlapping(FilterIndexes(verified, Unchosen(|verified|, chosen)))
    && plan.requestedTokens == |Union(SegmentRanges(queries))|
  }

  function TargetStart(c: CandidateMatch): int { c.target.range.start }

  /** Sorting the selected candidates gives the selection from left to right. */
  lemma SortedSelection(verified: seq<CandidateMatch>, chosen: seq<nat>)
    requires IsChain(ItemsOf(verified), chosen)
    ensures forall i :: 0 <= i < |chosen| ==> chosen[i] < |verified|
    ensures SortBy(CandidateLe, FilterIndexes(verified, ToSet(chosen))) == Pick(verified, chosen)
  {
    var items := ItemsOf(verified);
    ChainFacts(items, chosen);
    CandidateOrder();
    forall a: CandidateMatch, b: CandidateMatch
      ensures (TargetStart(a) < TargetStart(b) ==> CandidateLe(a, b))
        && (CandidateLe(a, b) ==> TargetStart(a) <= TargetStart(b))
    {
      KeyLeStarts(ItemOf(a), ItemOf(b));
    }
    forall i, j | 0 <= i < j < |chosen|
      ensures TargetStart(verified[chosen[i]]) < TargetStart(verified[chosen[j]])
    {
      assert items[chosen[i]] == ItemOf(verified[chosen[i]]) && items[chosen[j]] == ItemOf(verified[chosen[j]]);
    }
    SelectionSorted(CandidateLe, TargetStart, verified, chosen);
  }

  lemma CandidatesNext(ns: CacheNamespace, queries: seq<TokenSegment>, fp: Fingerprinter, lookup: RecordLookup, k: nat)
    requires k < |queries|
    ensures var f := fp(ns, queries[k].tokens);
      Candidates(ns, queries[..k + 1], fp, lookup)
      == Candidates(ns, queries[..k], fp, lookup) + CandidatesFor(queries[k], f, lookup(ns, f))
  {
    assert queries[..k + 1][..k] == queries[..k];
  }

  lemma VerifiedNext(ns: CacheNamespace, fp: Fingerprinter, cs: seq<CandidateMatch>, c: CandidateMatch)
    ensures Verified(ns, fp, cs + [c]) == Verified(ns, fp, cs) + (if Passes(ns, fp, c) then [c] else [])
    ensures FailedGate(ns, fp, cs + [c])
         == FailedGate(ns, fp, cs)
            + (match VerifyCandidate(ns, fp, c)
               case Some(reason) => [RejectedCandidate(c, reason)]
               case None => [])
  {
    FilterAppend(c => Passes(ns, fp, c), cs, c);
    assert (cs + [c])[..|cs|] == cs;
  }

  /** Every record of one digest bucket passes the gate or is recorded with its reason. */
  method GatherBucket(
      ns: CacheNamespace, fp: Fingerprinter, query: TokenSegment, f: SegmentFingerprint, bucket: seq<CacheRecord>,
      verifiedIn: seq<CandidateMatch>, rejectedIn: seq<RejectedCandidate>, ghost before: seq<CandidateMatch>)
      returns (verified: seq<CandidateMatch>, rejected: seq<RejectedCandidate>)
    requires verifiedIn == Verified(ns, fp, before) && rejectedIn == FailedGate(ns, fp, before)
    ensures verified == Verified(ns, fp, before + CandidatesFor(query, f, bucket))
    ensures rejected == FailedGate(ns, fp, before + CandidatesFor(query, f, bucket))
  {
    verified, rejected := verifiedIn, rejectedIn;
    ghost var added := CandidatesFor(query, f, bucket);
    assert before + added[..0] == before;
    for r := 0 to |bucket|
      invariant verified == Verified(ns, fp, before + added[..r])
      invariant rejected == FailedGate(ns, fp, before + added[..r])
    {
      var candidate := CandidateMatch(query, f, bucket[r]);
      VerifiedNext(ns, fp, before + added[..r], candidate);
      assert before + added[..r] + [candidate] == before + added[..r + 1];
      match VerifyCandidate(ns, fp, candidate) {
        case Some(reason) => rejected := rejected + [RejectedCandidate(candidate, reason)];
        case None => verified := verified + [candidate];
      }
    }
    TakeAll(added);
  }

  /** Looks every query up and runs each record through the gates. */
  method GatherCandidates(ns: CacheNamespace, queries: seq<TokenSegment>, fp: Fingerprinter, lookup: RecordLookup)
      returns (verified: seq<CandidateMatch>, rejected: seq<RejectedCandidate>)
    ensures verified == Verified(ns, fp, Candidates(ns, queries, fp, lookup))
    ensures rejected == FailedGate(ns, fp, Candidates(ns, queries, fp, lookup))
  {
    verified, rejected := [], [];
    for k := 0 to |queries|
      invariant verified == Verified(ns, fp, Candidates(ns, queries[..k], fp, lookup))
      invariant rejected == FailedGate(ns, fp, Candidates(ns, queries[..k], fp, lookup))
    {
      var query := queries[k];
      var f := fp(ns, query.tokens);
      var bucket := lookup(ns, f);
      ghost var before := Candidates(ns, queries[..k], fp, lookup);
      CandidatesNext(ns, queries, fp, lookup, k);
      verified, rejected := GatherBucket(ns, fp, query, f, bucket, verified, rejected, before);
    }
    TakeAll(queries);
  }

  method Plan(ns: CacheNamespace, queries: seq<TokenSegment>, fp: Fingerprinter, lookup: RecordLookup)
      returns (plan: MatchPlan)
    ensures exists chosen: seq<nat> :: PlanFor(ns, queries, fp, lookup, chosen, plan)
  {
    var verified, rejected := GatherCandidates(ns, queries, fp, lookup);
    var chosen := SelectNonOverlapping(ItemsOf(verified));
    SortedSelection(verified, chosen);
    var selected := FilterIndexes(verified, ToSet(chosen));
    var others := Overlapping(FilterIndexes(verified, Unchosen(|verified|, chosen)));
    var requested := CoveredTokenCount(SegmentRanges(queries));
    plan := MatchPlan(SortBy(CandidateLe, selected), rejected + others, requested);
    assert PlanFor(ns, queries, fp, lookup, chosen, plan);
  }
}
