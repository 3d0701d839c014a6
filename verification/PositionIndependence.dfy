/** Stored chunks are found wherever they move to: segmentation, lookup and planning together. */
module PositionIndependence {
  import opened Ranges
  import opened Models
  import opened IntervalSelection
  import opened Planner
  import opened PlanProperties
  import opened Segmentation

  /** A stored record whose tokens occur in a query region, `offset` tokens from its start. */
  datatype Occurrence = Occurrence(region: nat, offset: nat, record: CacheRecord) {
    ghost predicate In(regions: seq<TokenSegment>) {
      && region < |regions|
      && offset + |record.tokens| <= |regions[region].tokens|
      && regions[region].tokens[offset..offset + |record.tokens|] == record.tokens
    }

    ghost function Target(regions: seq<TokenSegment>): TokenSegment
      requires In(regions)
    {
      Slice(regions[region], offset, offset + |record.tokens|)
    }
  }

  /** The record was stored under its own fingerprint and the lookup still returns it. */
  ghost predicate Stored(ns: CacheNamespace, fp: Fingerprinter, lookup: RecordLookup, r: CacheRecord) {
    && r.namespace == ns
    && r.fingerprint == fp(ns, r.tokens)
    && r in lookup(ns, r.fingerprint)
  }

  ghost predicate Occurrences(regions: seq<TokenSegment>, sizes: seq<Size>, ns: CacheNamespace, fp: Fingerprinter,
                              lookup: RecordLookup, found: seq<Occurrence>)
  {
    forall i :: 0 <= i < |found| ==>
      found[i].In(regions) && Stored(ns, fp, lookup, found[i].record) && |found[i].record.tokens| in sizes
  }

  ghost function Targets(regions: seq<TokenSegment>, found: seq<Occurrence>): (rs: seq<TokenRange>)
    requires forall i :: 0 <= i < |found| ==> found[i].In(regions)
    ensures |rs| == |found|
    ensures forall i :: 0 <= i < |found| ==> rs[i] == found[i].Target(regions).range
  {
    seq(|found|, i requires 0 <= i < |found| => found[i].Target(regions).range)
  }

  lemma {:induction false} CandidatePresent(ns: CacheNamespace, queries: seq<TokenSegment>, fp: Fingerprinter,
                                            lookup: RecordLookup, query: TokenSegment, r: CacheRecord)
    requires query in queries && r in lookup(ns, fp(ns, query.tokens))
    ensures CandidateMatch(query, fp(ns, query.tokens), r) in Candidates(ns, queries, fp, lookup)
  {
    var last := queries[|queries| - 1];
    if query == last {
      var f := fp(ns, last.tokens);
      var i :| 0 <= i < |lookup(ns, f)| && lookup(ns, f)[i] == r;
      assert CandidatesFor(last, f, lookup(ns, f))[i] == CandidateMatch(query, f, r);
    } else {
      CandidatePresent(ns, queries[..|queries| - 1], fp, lookup, query, r);
    }
  }

  /** Every occurrence of a stored chunk becomes a verified candidate at its own range. */
  lemma OccurrenceVerified(regions: seq<TokenSegment>, sizes: seq<Size>, ns: CacheNamespace, fp: Fingerprinter,
                           lookup: RecordLookup, o: Occurrence) returns (index: nat)
    requires o.In(regions) && Stored(ns, fp, lookup, o.record) && |o.record.tokens| in sizes
    ensures var verified := Verified(ns, fp, Candidates(ns, Rolling(regions, sizes, 1), fp, lookup));
      index < |verified| && verified[index].target == o.Target(regions)
  {
    var queries := Rolling(regions, sizes, 1);
    var target := o.Target(regions);
    assert o.offset * 1 == o.offset;
    WindowPresent(regions, sizes, 1, o.region, o.offset, |o.record.tokens|);
    CandidatePresent(ns, queries, fp, lookup, target, o.record);
    var c := CandidateMatch(target, fp(ns, target.tokens), o.record);
    var all := Candidates(ns, queries, fp, lookup);
    FilterMembers(c => Passes(ns, fp, c), all, c);
    index :| 0 <= index < |Verified(ns, fp, all)| && Verified(ns, fp, all)[index] == c;
  }

  /** `s` picks verified candidates at the ranges `targets`, without overlaps, covering them all. */
  ghost predicate Represents(verified: seq<CandidateMatch>, targets: seq<TokenRange>, s: set<nat>) {
    && (forall k :: k in s ==> k < |verified| && verified[k].target.range in targets)
    && Feasible(ItemsOf(verified), s)
    && Union(targets) <= Coverage(ItemsOf(verified), s)
  }

  lemma RepresentsMore(verified: seq<CandidateMatch>, targets: seq<TokenRange>, s: set<nat>, index: nat)
    requires Represents(verified, targets, s) && index < |verified|
    requires forall r :: r in targets ==> !r.Overlaps(verified[index].target.range)
    ensures Represents(verified, targets + [verified[index].target.range], s + {index})
  {
    var items, range := ItemsOf(verified), verified[index].target.range;
    forall k | k in s
      ensures Apart(items, k, index)
    {
      assert verified[k].target.range in targets;
    }
    UnionSplit(targets, range);
    CoverageHas(verified, s, index);
  }

  lemma {:induction false} OccurrencesFeasible(
      regions: seq<TokenSegment>, sizes: seq<Size>, ns: CacheNamespace, fp: Fingerprinter, lookup: RecordLookup,
      found: seq<Occurrence>) returns (s: set<nat>)
    requires Occurrences(regions, sizes, ns, fp, lookup, found)
    requires MutuallyApart(Targets(regions, found))
    ensures Represents(Verified(ns, fp, Candidates(ns, Rolling(regions, sizes, 1), fp, lookup)),
      Targets(regions, found), s)
  {
    var targets := Targets(regions, found);
    if found == [] {
      s := {};
      assert Union(targets) == {};
    } else {
      var front, o := found[..|found| - 1], found[|found| - 1];
      assert Targets(regions, front) == targets[..|targets| - 1];
      var t := OccurrencesFeasible(regions, sizes, ns, fp, lookup, front);
      var index := OccurrenceVerified(regions, sizes, ns, fp, lookup, o);
      assert targets == targets[..|targets| - 1] + [o.Target(regions).range];
      RepresentsMore(Verified(ns, fp, Candidates(ns, Rolling(regions, sizes, 1), fp, lookup)), targets[..|targets| - 1],
        t, index);
      s := t + {index};
    }
  }

  lemma CoverageHas(verified: seq<CandidateMatch>, t: set<nat>, index: nat)
    requires (forall k :: k in t ==> k < |verified|) && index < |verified|
    ensures Coverage(ItemsOf(verified), t) + Points(verified[index].target.range)
         <= Coverage(ItemsOf(verified), t + {index})
  {
    var items := ItemsOf(verified);
    forall p | p in Points(verified[index].target.range)
      ensures p in Coverage(items, t + {index})
    {
      assert InBounds(items[index].start, items[index].end, p);
    }
  }

  /** No two of the ranges overlap, in any order. */
  ghost predicate MutuallyApart(rs: seq<TokenRange>) {
    forall i, j :: 0 <= i < j < |rs| ==> !rs[i].Overlaps(rs[j])
  }

  lemma LastApart(rs: seq<TokenRange>)
    requires NonEmpty(rs) && MutuallyApart(rs) && rs != []
    ensures Union(rs) == Union(rs[..|rs| - 1]) + Points(rs[|rs| - 1])
    ensures Union(rs[..|rs| - 1]) !! Points(rs[|rs| - 1])
  {
    var front, r := rs[..|rs| - 1], rs[|rs| - 1];
    UnionSplit(front, r);
    assert rs == front + [r];
    forall p | Covers(front, p)
      ensures p !in Points(r)
    {
      var i :| 0 <= i < |front| && InBounds(front[i].start, front[i].end, p);
      assert !rs[i].Overlaps(r);
    }
  }

  /** Pairwise disjoint ranges add up to the size of their union. */
  lemma {:induction false} DisjointSum(rs: seq<TokenRange>)
    requires NonEmpty(rs) && MutuallyApart(rs)
    ensures TokenSum(rs) == |Union(rs)|
  {
    if rs != [] {
      DisjointSum(rs[..|rs| - 1]);
      IntervalSize(rs[|rs| - 1].start, rs[|rs| - 1].end);
      LastApart(rs);
    }
  }

  /** With stride 1, any non-overlapping occurrences of stored chunks whose sizes are among
      the windows are worth at most what the plan matches. */
  lemma MovedChunksAreMatched(regions: seq<TokenSegment>, sizes: seq<Size>, ns: CacheNamespace, fp: Fingerprinter,
                              lookup: RecordLookup, chosen: seq<nat>, plan: MatchPlan, found: seq<Occurrence>)
    requires PlanFor(ns, Rolling(regions, sizes, 1), fp, lookup, chosen, plan)
    requires Occurrences(regions, sizes, ns, fp, lookup, found)
    requires MutuallyApart(Targets(regions, found))
    ensures TokenSum(Targets(regions, found)) <= MatchedTokens(plan)
  {
    var verified := Verified(ns, fp, Candidates(ns, Rolling(regions, sizes, 1), fp, lookup));
    var items := ItemsOf(verified);
    var s := OccurrencesFeasible(regions, sizes, ns, fp, lookup, found);
    BestCoversMost(items, chosen, s);
    ChainCoverage(items, chosen);
    MatchedIsSelection(verified, chosen);
    DisjointSum(Targets(regions, found));
    SubsetSize(Union(Targets(regions, found)), Coverage(items, s));
  }
}
