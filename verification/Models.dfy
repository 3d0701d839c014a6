/** Value objects of the cache-match planner.  The subset types carry the checks that
    the source's constructors make. */
module Models {
  import opened Order
  import opened Ranges

  datatype Option<+T> = None | Some(value: T)

  type Byte = b: nat | b < 256
  type Bytes = seq<Byte>

  const TOKEN_LIMIT: nat := 0x1_0000_0000_0000_0000
  type TokenId = t: nat | t < TOKEN_LIMIT

  /** All compatibility inputs that separate mutually reusable cache entries. */
  datatype CacheNamespace = CacheNamespace(
    schemaVersion: nat,
    modelId: string,
    modelRevision: string,
    tokenizerId: string,
    tokenizerRevision: string,
    modelConfigDigest: string,
    kvCacheConfigDigest: string,
    adapterRevision: string,
    vllmVersion: string,
    lmcacheVersion: string,
    torchVersion: string,
    cudaRuntime: string)

  datatype SegmentFingerprint = SegmentFingerprint(digest: Bytes)

  datatype Segment = Segment(range: TokenRange, tokens: seq<TokenId>)
  type TokenSegment = s: Segment | s.tokens != [] && Len(s.range) == |s.tokens|
    witness Segment(Bounds(0, 1), [0])

  datatype Record = Record(
    namespace: CacheNamespace,
    fingerprint: SegmentFingerprint,
    tokens: seq<TokenId>,
    sourceRange: TokenRange,
    cacheKey: string)
  ghost const AnyNamespace := CacheNamespace(1, "m", "r", "t", "r", "d", "d", "a", "v", "l", "p", "c")
  type CacheRecord = r: Record | r.tokens != [] && Len(r.sourceRange) == |r.tokens| && r.cacheKey != ""
    ghost witness Record(AnyNamespace, SegmentFingerprint([]), [0], Bounds(0, 1), "k")

  /** A lookup result that has not passed any check yet. */
  datatype CandidateMatch = CandidateMatch(
    target: TokenSegment,
    queryFingerprint: SegmentFingerprint,
    record: CacheRecord)

  /** Fingerprinting is an arbitrary function here: no proof needs it to be injective. */
  type Fingerprinter = (CacheNamespace, seq<TokenId>) -> SegmentFingerprint

  /** What the storage layer answers for a digest bucket; its records are untrusted. */
  type RecordLookup = (CacheNamespace, SegmentFingerprint) -> seq<CacheRecord>

  // ----- mapping

  function Map<A, B>(f: A -> B, s: seq<A>): (t: seq<B>)
    ensures |t| == |s|
  {
    seq(|s|, i requires 0 <= i < |s| => f(s[i]))
  }

  lemma MapAppend<A, B>(f: A -> B, a: seq<A>, b: seq<A>)
    ensures Map(f, a + b) == Map(f, a) + Map(f, b)
  {
  }

  lemma MapOne<A, B>(f: A -> B, x: A)
    ensures Map(f, [x]) == [f(x)]
  {
  }

  lemma BagRemove<T>(s: seq<T>, i: nat)
    requires i < |s|
    ensures multiset(s[..i] + s[i + 1..]) == multiset(s) - multiset{s[i]}
  {
    assert s == s[..i] + [s[i]] + s[i + 1..];
  }

  lemma BagMiddle<T>(a: seq<T>, x: T, b: seq<T>)
    ensures multiset(a + [x] + b) == multiset(a + b) + multiset{x}
  {
  }

  lemma MapRemove<A, B>(f: A -> B, s: seq<A>, i: nat)
    requires i < |s|
    ensures multiset(Map(f, s)) == multiset(Map(f, s[..i] + s[i + 1..])) + multiset{f(s[i])}
  {
    var before, after := Map(f, s[..i]), Map(f, s[i + 1..]);
    assert Map(f, s) == before + [f(s[i])] + after;
    assert Map(f, s[..i] + s[i + 1..]) == before + after;
    BagMiddle(before, f(s[i]), after);
  }

  /** A map depends on order only through the order of its results. */
  lemma {:induction false} MapBag<A, B>(f: A -> B, a: seq<A>, b: seq<A>)
    requires multiset(a) == multiset(b)
    ensures multiset(Map(f, a)) == multiset(Map(f, b))
    decreases |a|
  {
    if a == [] || b == [] {
      EmptyPermutation(a, b);
    } else {
      var k := |a| - 1;
      assert a[k] in multiset(b);
      var i :| 0 <= i < |b| && b[i] == a[k];
      var front, rest := a[..k] + a[k + 1..], b[..i] + b[i + 1..];
      BagRemove(a, k);
      BagRemove(b, i);
      MapBag(f, front, rest);
      MapRemove(f, a, k);
      MapRemove(f, b, i);
    }
  }

  // ----- filtering

  /** The elements that satisfy `keep`, in order. */
  function Filter<T>(keep: T -> bool, s: seq<T>): seq<T> {
    if s == [] then []
    else Filter(keep, s[..|s| - 1]) + (if keep(s[|s| - 1]) then [s[|s| - 1]] else [])
  }

  lemma FilterAppend<T>(keep: T -> bool, s: seq<T>, x: T)
    ensures Filter(keep, s + [x]) == Filter(keep, s) + (if keep(x) then [x] else [])
  {
    assert (s + [x])[..|s|] == s;
  }

  lemma {:induction false} FilterMembers<T>(keep: T -> bool, s: seq<T>, x: T)
    ensures x in Filter(keep, s) <==> x in s && keep(x)
  {
    if s != [] {
      FilterMembers(keep, s[..|s| - 1], x);
      assert s == s[..|s| - 1] + [s[|s| - 1]];
    }
  }

  /** The elements whose index is in `chosen`, in order. */
  function FilterIndexes<T>(s: seq<T>, chosen: set<nat>): seq<T> {
    if s == [] then []
    else FilterIndexes(s[..|s| - 1], chosen) + (if |s| - 1 in chosen then [s[|s| - 1]] else [])
  }

  function Pick<T>(s: seq<T>, indexes: seq<nat>): (picked: seq<T>)
    requires forall i :: 0 <= i < |indexes| ==> indexes[i] < |s|
    ensures |picked| == |indexes|
  {
    seq(|indexes|, i requires 0 <= i < |indexes| => s[indexes[i]])
  }

  lemma {:induction false} FilterIndexesRemove<T>(s: seq<T>, chosen: set<nat>, x: nat)
    requires x in chosen && x < |s|
    ensures multiset(FilterIndexes(s, chosen)) == multiset(FilterIndexes(s, chosen - {x})) + multiset{s[x]}
  {
    if x == |s| - 1 {
      FilterIndexesIrrelevant(s[..|s| - 1], chosen, x);
    } else {
      FilterIndexesRemove(s[..|s| - 1], chosen, x);
    }
  }

  lemma {:induction false} FilterIndexesIrrelevant<T>(s: seq<T>, chosen: set<nat>, x: nat)
    requires x >= |s|
    ensures FilterIndexes(s, chosen) == FilterIndexes(s, chosen - {x})
  {
    if s != [] {
      FilterIndexesIrrelevant(s[..|s| - 1], chosen, x);
    }
  }

  lemma {:induction false} FilterIndexesEmpty<T>(s: seq<T>)
    ensures FilterIndexes(s, {}) == []
  {
    if s != [] {
      FilterIndexesEmpty(s[..|s| - 1]);
    }
  }

  /** Selecting by index set keeps exactly the elements listed by the indexes. */
  lemma {:induction false} PickIsFilter<T>(s: seq<T>, indexes: seq<nat>)
    requires Distinct(indexes) && forall i :: 0 <= i < |indexes| ==> indexes[i] < |s|
    ensures multiset(Pick(s, indexes)) == multiset(FilterIndexes(s, ToSet(indexes)))
  {
    if indexes == [] {
      assert ToSet(indexes) == {};
      FilterIndexesEmpty(s);
    } else {
      var front, last := indexes[..|indexes| - 1], indexes[|indexes| - 1];
      DistinctFront(indexes);
      PickIsFilter(s, front);
      assert last in ToSet(indexes);
      FilterIndexesRemove(s, ToSet(indexes), last);
      PickFront(s, indexes);
    }
  }

  lemma PickFront<T>(s: seq<T>, indexes: seq<nat>)
    requires indexes != [] && forall i :: 0 <= i < |indexes| ==> indexes[i] < |s|
    ensures Pick(s, indexes) == Pick(s, indexes[..|indexes| - 1]) + [s[indexes[|indexes| - 1]]]
  {
  }

  /** Selected and unselected elements together are the whole sequence. */
  lemma {:induction false} FilterIndexesPartition<T>(s: seq<T>, chosen: set<nat>, others: set<nat>)
    requires forall i: nat :: i < |s| ==> (i in chosen <==> i !in others)
    ensures multiset(FilterIndexes(s, chosen)) + multiset(FilterIndexes(s, others)) == multiset(s)
  {
    if s != [] {
      FilterIndexesPartition(s[..|s| - 1], chosen, others);
      assert s == s[..|s| - 1] + [s[|s| - 1]];
    }
  }

  /** A selected element comes from a chosen index. */
  lemma {:induction false} FilterIndexesMember<T>(s: seq<T>, chosen: set<nat>, x: T) returns (i: nat)
    requires x in FilterIndexes(s, chosen)
    ensures i < |s| && i in chosen && s[i] == x
  {
    if |s| - 1 in chosen && s[|s| - 1] == x {
      i := |s| - 1;
    } else {
      i := FilterIndexesMember(s[..|s| - 1], chosen, x);
    }
  }

  /** The indexes below `n` that were not chosen. */
  function Unchosen(n: nat, chosen: seq<nat>): set<nat> { set i: nat | i < n && i !in chosen }

  /** Whether the order puts earlier starts first. */
  ghost predicate OrdersByStart<T(!new)>(le: (T, T) -> bool, start: T -> int) {
    && TotalPreorder(le)
    && forall a: T, b: T :: (start(a) < start(b) ==> le(a, b)) && (le(a, b) ==> start(a) <= start(b))
  }

  /** Sorting elements that were selected left to right lists the selection as it is. */
  lemma SelectionSorted<T(!new)>(le: (T, T) -> bool, start: T -> int, s: seq<T>, chosen: seq<nat>)
    requires OrdersByStart(le, start)
    requires forall i :: 0 <= i < |chosen| ==> chosen[i] < |s|
    requires forall i, j :: 0 <= i < j < |chosen| ==> start(s[chosen[i]]) < start(s[chosen[j]])
    ensures SortBy(le, FilterIndexes(s, ToSet(chosen))) == Pick(s, chosen)
  {
    var picked, selected := Pick(s, chosen), FilterIndexes(s, ToSet(chosen));
    assert Distinct(chosen);
    PickIsFilter(s, chosen);
    SortSorted(le, selected);
    SortMultiset(le, selected);
    PickedInOrder(le, start, s, chosen);
    SortedUnique(le, picked, SortBy(le, selected));
  }

  lemma PickedInOrder<T(!new)>(le: (T, T) -> bool, start: T -> int, s: seq<T>, chosen: seq<nat>)
    requires OrdersByStart(le, start)
    requires forall i :: 0 <= i < |chosen| ==> chosen[i] < |s|
    requires forall i, j :: 0 <= i < j < |chosen| ==> start(s[chosen[i]]) < start(s[chosen[j]])
    ensures SortedBy(le, Pick(s, chosen))
    ensures TieFree(le, Pick(s, chosen))
  {
    var picked := Pick(s, chosen);
    forall i, j | 0 <= i < j < |picked|
      ensures start(picked[i]) < start(picked[j])
      ensures le(picked[i], picked[j])
    {
      assert picked[i] == s[chosen[i]] && picked[j] == s[chosen[j]];
    }
    forall a, b | a in multiset(picked) && b in multiset(picked) && le(a, b) && le(b, a)
      ensures a == b
    {
      assert a in picked && b in picked;
      var i :| 0 <= i < |picked| && picked[i] == a;
      var j :| 0 <= j < |picked| && picked[j] == b;
      assert i == j;
    }
  }
}
