/** Half-open token ranges and the algebra the planner and the row policy share:
    counting a union, merging, and complementing inside a prompt. */
module Ranges {
  import opened Order

  datatype Bounds = Bounds(start: nat, end: nat) {
    predicate Overlaps(other: Bounds) {
      start < other.end && other.start < end
    }
  }

  /** The source rejects a range whose end precedes its start. */
  type TokenRange = r: Bounds | r.start <= r.end witness Bounds(0, 0)

  function Len(r: TokenRange): nat { r.end - r.start }

  predicate InBounds(lo: int, hi: int, p: int) { lo <= p < hi }

  ghost function Interval(lo: int, hi: int): (s: set<int>)
    ensures forall p :: p in s <==> lo <= p < hi
  {
    set p: int | lo <= p < hi && InBounds(lo, hi, p)
  }

  lemma {:induction false} IntervalSize(lo: int, hi: int)
    requires lo <= hi
    ensures |Interval(lo, hi)| == hi - lo
    decreases hi - lo
  {
    if lo == hi {
      assert Interval(lo, hi) == {};
    } else {
      IntervalSize(lo, hi - 1);
      assert Interval(lo, hi) == Interval(lo, hi - 1) + {hi - 1};
    }
  }

  /** A list of positions as a set. */
  ghost function Positions(s: seq<nat>): (r: set<int>)
    ensures forall p: int :: p in r <==> p >= 0 && p in s
  {
    set p: nat | p in s :: p as int
  }

  lemma {:induction false} PositionsSize(s: seq<nat>)
    requires Distinct(s)
    ensures |Positions(s)| == |s|
  {
    if s == [] {
      assert Positions(s) == {};
    } else {
      var front, last := s[..|s| - 1], s[|s| - 1];
      PositionsSize(front);
      assert s == front + [last];
      assert Positions(s) == Positions(front) + {last as int};
      assert last !in front;
    }
  }

  function Min(a: nat, b: nat): nat { if a < b then a else b }

  function Max(a: nat, b: nat): nat { if a < b then b else a }

  ghost function Points(r: Bounds): set<int> { Interval(r.start, r.end) }

  predicate Covers(rs: seq<TokenRange>, p: int) {
    exists i :: 0 <= i < |rs| && InBounds(rs[i].start, rs[i].end, p)
  }

  /** The positions covered by at least one range. */
  ghost function Union(rs: seq<TokenRange>): (s: set<int>)
    ensures forall p :: p in s <==> Covers(rs, p)
  {
    set i, p | 0 <= i < |rs| && rs[i].start <= p < rs[i].end && InBounds(rs[i].start, rs[i].end, p) :: p
  }

  lemma SubsetSize<T>(a: set<T>, b: set<T>)
    requires a <= b
    ensures |a| <= |b|
    ensures |a| == |b| ==> a == b
  {
    assert b == a + (b - a);
    assert |b| == |a| + |b - a|;
  }

  lemma UnionBounded(rs: seq<TokenRange>, n: nat)
    requires Within(rs, n)
    ensures Union(rs) <= Interval(0, n) && |Union(rs)| <= n
  {
    IntervalSize(0, n);
    SubsetSize(Union(rs), Interval(0, n));
  }

  lemma UnionAppend(a: seq<TokenRange>, b: seq<TokenRange>)
    ensures Union(a + b) == Union(a) + Union(b)
  {
    forall p
      ensures Covers(a + b, p) <==> Covers(a, p) || Covers(b, p)
    {
      if Covers(a, p) {
        var i :| 0 <= i < |a| && a[i].start <= p < a[i].end;
        assert (a + b)[i] == a[i];
      }
      if Covers(b, p) {
        var i :| 0 <= i < |b| && b[i].start <= p < b[i].end;
        assert (a + b)[|a| + i] == b[i];
      }
    }
  }

  lemma UnionSplit(rs: seq<TokenRange>, r: TokenRange)
    ensures Union(rs + [r]) == Union(rs) + Points(r)
  {
    UnionAppend(rs, [r]);
    UnionOfOne(r);
  }

  lemma UnionOfOne(r: TokenRange)
    ensures Union([r]) == Points(r)
  {
    assert forall p :: Covers([r], p) <==> r.start <= p < r.end by {
      assert [r][0] == r;
    }
  }

  /** A union depends only on which ranges occur. */
  lemma UnionOfSame(a: seq<TokenRange>, b: seq<TokenRange>)
    requires forall r :: r in a ==> r in b
    ensures Union(a) <= Union(b)
  {
    forall p | Covers(a, p)
      ensures Covers(b, p)
    {
      var i :| 0 <= i < |a| && a[i].start <= p < a[i].end;
      assert a[i] in b;
      var j :| 0 <= j < |b| && b[j] == a[i];
    }
  }

  function TokenSum(rs: seq<TokenRange>): nat {
    if rs == [] then 0 else TokenSum(rs[..|rs| - 1]) + Len(rs[|rs| - 1])
  }

  // ----- ordered and canonical range lists

  ghost predicate NonEmpty(rs: seq<TokenRange>) {
    forall i :: 0 <= i < |rs| ==> rs[i].start < rs[i].end
  }

  ghost predicate Within(rs: seq<TokenRange>, n: int) {
    forall i :: 0 <= i < |rs| ==> rs[i].end <= n
  }

  ghost predicate Disjoint(rs: seq<TokenRange>) {
    forall i, j :: 0 <= i < j < |rs| ==> rs[i].end <= rs[j].start
  }

  ghost predicate Gapped(rs: seq<TokenRange>) {
    forall i, j :: 0 <= i < j < |rs| ==> rs[i].end < rs[j].start
  }

  /** What every range validator accepts: non-empty, sorted, not overlapping. */
  ghost predicate Ordered(rs: seq<TokenRange>) { NonEmpty(rs) && Disjoint(rs) }

  /** Ordered, and any two ranges are separated by at least one position. */
  ghost predicate Canonical(rs: seq<TokenRange>) { NonEmpty(rs) && Gapped(rs) }

  /** A canonical list is determined by the positions it covers. */
  lemma {:induction false} CanonicalUnique(a: seq<TokenRange>, b: seq<TokenRange>)
    requires Canonical(a) && Canonical(b) && Union(a) == Union(b)
    ensures a == b
  {
    if a == [] || b == [] {
      CanonicalEmpty(a);
      CanonicalEmpty(b);
    } else {
      CanonicalLast(a, b);
      CanonicalLast(b, a);
      UnionFront(a);
      UnionFront(b);
      assert Union(a[..|a| - 1]) == Union(a) - Points(a[|a| - 1]) == Union(b[..|b| - 1]);
      CanonicalUnique(a[..|a| - 1], b[..|b| - 1]);
      assert a == a[..|a| - 1] + [a[|a| - 1]] && b == b[..|b| - 1] + [b[|b| - 1]];
    }
  }

  lemma CanonicalEmpty(a: seq<TokenRange>)
    requires NonEmpty(a)
    ensures a == [] <==> Union(a) == {}
  {
    if a != [] {
      assert Covers(a, a[0].start);
    }
  }

  lemma CanonicalLast(a: seq<TokenRange>, b: seq<TokenRange>)
    requires Canonical(a) && Canonical(b) && Union(a) == Union(b) && a != [] && b != []
    ensures a[|a| - 1].end <= b[|b| - 1].end
    ensures a[|a| - 1].end == b[|b| - 1].end ==> b[|b| - 1].start <= a[|a| - 1].start
  {
    var x, y := a[|a| - 1], b[|b| - 1];
    assert Covers(a, x.end - 1);
    assert Covers(b, x.end - 1);
    assert !Covers(b, y.start - 1) by {
      assert forall i :: 0 <= i < |b| - 1 ==> b[i].end < y.start;
    }
    assert x.start <= y.start - 1 < x.end ==> Covers(a, y.start - 1);
  }

  lemma UnionFront(a: seq<TokenRange>)
    requires Disjoint(a) && a != []
    ensures Union(a) == Union(a[..|a| - 1]) + Points(a[|a| - 1])
    ensures Union(a[..|a| - 1]) !! Points(a[|a| - 1])
  {
    var front, last := a[..|a| - 1], a[|a| - 1];
    assert a == front + [last];
    UnionSplit(front, last);
    forall p | Covers(front, p)
      ensures p < last.start
    {
      var i :| 0 <= i < |front| && front[i].start <= p < front[i].end;
      assert a[i] == front[i];
    }
  }

  /** Disjoint ranges add up to the size of their union. */
  lemma {:induction false} SumIsUnionSize(rs: seq<TokenRange>)
    requires Disjoint(rs)
    ensures TokenSum(rs) == |Union(rs)|
  {
    if rs != [] {
      var front, r := rs[..|rs| - 1], rs[|rs| - 1];
      SumIsUnionSize(front);
      IntervalSize(r.start, r.end);
      UnionFront(rs);
    }
  }

  // ----- counting the union

  predicate RangeLe(a: TokenRange, b: TokenRange) {
    a.start < b.start || (a.start == b.start && a.end <= b.end)
  }

  lemma RangeOrder()
    ensures TotalOrder<TokenRange>(RangeLe)
  {
  }

  /** The library sort by (start, end). */
  method SortRanges(ranges: seq<TokenRange>) returns (ordered: seq<TokenRange>)
    ensures forall i, j :: 0 <= i < j < |ordered| ==> ordered[i].start <= ordered[j].start
    ensures Union(ordered) == Union(ranges)
    ensures NonEmpty(ranges) ==> NonEmpty(ordered)
    ensures ordered == [] <==> ranges == []
  {
    ordered := SortBy(RangeLe, ranges);
    RangeOrder();
    SortElements(RangeLe, ranges);
    SortSorted(RangeLe, ranges);
    UnionOfSame(ordered, ranges);
    UnionOfSame(ranges, ordered);
    assert forall i, j :: 0 <= i < j < |ordered| ==> RangeLe(ordered[i], ordered[j]);
    assert forall i :: 0 <= i < |ordered| ==> ordered[i] in ranges;
  }

  /** State of the sweep after the ranges in `done`: one open run [lo, hi), and
      the positions `closed` by the runs before it. */
  ghost predicate Swept(done: seq<TokenRange>, closed: set<int>, lo: nat, hi: nat) {
    && lo <= hi
    && (forall p :: p in closed ==> p < lo)
    && Union(done) == closed + Interval(lo, hi)
  }

  lemma SweepStart(r: TokenRange)
    ensures Swept([r], {}, r.start, r.end)
  {
    UnionOfOne(r);
  }

  lemma SweepExtend(done: seq<TokenRange>, closed: set<int>, lo: nat, hi: nat, r: TokenRange)
    requires Swept(done, closed, lo, hi) && lo <= r.start <= hi
    ensures Swept(done + [r], closed, lo, if hi < r.end then r.end else hi)
  {
    UnionSplit(done, r);
  }

  lemma SweepSize(done: seq<TokenRange>, closed: set<int>, lo: nat, hi: nat)
    requires Swept(done, closed, lo, hi)
    ensures |Union(done)| == |closed| + (hi - lo)
  {
    IntervalSize(lo, hi);
    assert closed !! Interval(lo, hi);
  }

  lemma SweepClose(done: seq<TokenRange>, closed: set<int>, lo: nat, hi: nat, r: TokenRange)
    requires Swept(done, closed, lo, hi) && hi < r.start
    ensures Swept(done + [r], Union(done), r.start, r.end)
  {
    UnionSplit(done, r);
  }

  /** Counts distinct positions by sweeping the sorted ranges with one open run. */
  method CoveredTokenCount(ranges: seq<TokenRange>) returns (covered: nat)
    ensures covered == |Union(ranges)|
  {
    var ordered := SortRanges(ranges);
    if ordered == [] {
      return 0;
    }
    covered := 0;
    var currentStart: nat, currentEnd: nat := ordered[0].start, ordered[0].end;
    ghost var closed: set<int> := {};
    SweepStart(ordered[0]);
    assert ordered[..1] == [ordered[0]];
    for k := 1 to |ordered|
      invariant Swept(ordered[..k], closed, currentStart, currentEnd)
      invariant covered == |closed|
      invariant forall i :: k <= i < |ordered| ==> currentStart <= ordered[i].start
    {
      var r := ordered[k];
      TakeNext(ordered, k);
      if r.start <= currentEnd {
        SweepExtend(ordered[..k], closed, currentStart, currentEnd, r);
        currentEnd := if currentEnd < r.end then r.end else currentEnd;
      } else {
        SweepSize(ordered[..k], closed, currentStart, currentEnd);
        SweepClose(ordered[..k], closed, currentStart, currentEnd, r);
        closed := Union(ordered[..k]);
        covered := covered + (currentEnd - currentStart);
        currentStart, currentEnd := r.start, r.end;
      }
    }
    TakeAll(ordered);
    SweepSize(ordered, closed, currentStart, currentEnd);
    covered := covered + (currentEnd - currentStart);
  }

  // ----- merging

  /** The merge of the ranges in `done`: same positions, and a gap after every range. */
  ghost predicate Merged(done: seq<TokenRange>, merged: seq<TokenRange>) {
    Union(merged) == Union(done) && Gapped(merged) && (NonEmpty(done) ==> NonEmpty(merged))
  }

  lemma MergeApart(done: seq<TokenRange>, merged: seq<TokenRange>, item: TokenRange)
    requires Merged(done, merged) && (merged == [] || item.start > merged[|merged| - 1].end)
    requires Rising(merged)
    ensures Merged(done + [item], merged + [item]) && Rising(merged + [item])
  {
    UnionSplit(done, item);
    UnionSplit(merged, item);
    NonEmptyFront(done, item);
    GappedNext(merged, item);
  }

  lemma GappedNext(merged: seq<TokenRange>, item: TokenRange)
    requires Gapped(merged) && Rising(merged) && (merged == [] || item.start > merged[|merged| - 1].end)
    ensures Gapped(merged + [item]) && Rising(merged + [item])
  {
    forall i | 0 <= i < |merged|
      ensures merged[i].end < item.start
    {
      assert i < |merged| - 1 ==> merged[i].end <= merged[|merged| - 1].end;
    }
  }

  lemma MergeGrown(done: seq<TokenRange>, merged: seq<TokenRange>, item: TokenRange)
    requires Merged(done, merged) && merged != [] && Rising(merged)
    requires merged[|merged| - 1].start <= item.start <= merged[|merged| - 1].end < item.end
    ensures var grown := merged[|merged| - 1 := Bounds(merged[|merged| - 1].start, item.end)];
      Merged(done + [item], grown) && Rising(grown)
  {
    UnionSplit(done, item);
    GrowLast(merged, item);
    NonEmptyFront(done, item);
  }

  lemma MergeInside(done: seq<TokenRange>, merged: seq<TokenRange>, item: TokenRange)
    requires Merged(done, merged) && merged != []
    requires merged[|merged| - 1].start <= item.start && item.end <= merged[|merged| - 1].end
    ensures Merged(done + [item], merged)
  {
    UnionSplit(done, item);
    NonEmptyFront(done, item);
    assert Points(item) <= Union(merged);
  }

  lemma NonEmptyFront(done: seq<TokenRange>, item: TokenRange)
    ensures NonEmpty(done + [item]) ==> NonEmpty(done) && item.start < item.end
  {
    if NonEmpty(done + [item]) {
      assert forall i :: 0 <= i < |done| ==> (done + [item])[i] == done[i];
      assert (done + [item])[|done|] == item;
    }
  }

  /** Ends rise along the list, so the last end is the greatest. */
  ghost predicate Rising(rs: seq<TokenRange>) {
    forall i, j :: 0 <= i < j < |rs| ==> rs[i].end <= rs[j].end
  }

  /** Merges overlapping and adjacent ranges.  The union never changes, the result is
      always gapped, and it is canonical when no input range is empty. */
  method MergeRanges(ranges: seq<TokenRange>) returns (merged: seq<TokenRange>)
    ensures Union(merged) == Union(ranges)
    ensures Gapped(merged)
    ensures NonEmpty(ranges) ==> Canonical(merged)
  {
    var ordered := SortRanges(ranges);
    merged := [];
    for k := 0 to |ordered|
      invariant Merged(ordered[..k], merged) && Rising(merged)
      invariant merged != [] && k < |ordered| ==> merged[|merged| - 1].start <= ordered[k].start
    {
      var item := ordered[k];
      TakeNext(ordered, k);
      if merged == [] || item.start > merged[|merged| - 1].end {
        MergeApart(ordered[..k], merged, item);
        merged := merged + [item];
      } else if item.end > merged[|merged| - 1].end {
        MergeGrown(ordered[..k], merged, item);
        merged := merged[|merged| - 1 := Bounds(merged[|merged| - 1].start, item.end)];
      } else {
        MergeInside(ordered[..k], merged, item);
      }
    }
    TakeAll(ordered);
  }

  lemma GrowLast(merged: seq<TokenRange>, item: TokenRange)
    requires merged != []
    requires merged[|merged| - 1].start <= item.start <= merged[|merged| - 1].end < item.end
    ensures Union(merged[|merged| - 1 := Bounds(merged[|merged| - 1].start, item.end)]) == Union(merged) + Points(item)
  {
    var front, last := merged[..|merged| - 1], merged[|merged| - 1];
    var grown: TokenRange := Bounds(last.start, item.end);
    assert merged == front + [last] && merged[|merged| - 1 := grown] == front + [grown];
    UnionSplit(front, last);
    UnionSplit(front, grown);
  }

  // ----- complement

  /** The gaps left by `rs` from `cursor` up to `n`. */
  function ComplementFrom(cursor: nat, n: nat, rs: seq<TokenRange>): seq<TokenRange>
    decreases |rs|
  {
    if rs == [] then
      if cursor < n then [Bounds(cursor, n)] else []
    else
      (if cursor < rs[0].start then [Bounds(cursor, rs[0].start)] else [])
      + ComplementFrom(rs[0].end, n, rs[1..])
  }

  function Complement(n: nat, rs: seq<TokenRange>): seq<TokenRange> {
    ComplementFrom(0, n, rs)
  }

  lemma ComplementStep(gaps: seq<TokenRange>, cursor: nat, n: nat, rs: seq<TokenRange>, k: nat)
    requires k < |rs|
    ensures gaps + ComplementFrom(cursor, n, rs[k..])
         == (if cursor < rs[k].start then gaps + [Bounds(cursor, rs[k].start)] else gaps)
            + ComplementFrom(rs[k].end, n, rs[k + 1..])
  {
    DropNext(rs, k);
  }

  method ComputeComplement(n: nat, rs: seq<TokenRange>) returns (gaps: seq<TokenRange>)
    ensures gaps == Complement(n, rs)
  {
    gaps := [];
    var cursor: nat := 0;
    for k := 0 to |rs|
      invariant gaps + ComplementFrom(cursor, n, rs[k..]) == Complement(n, rs)
    {
      ComplementStep(gaps, cursor, n, rs, k);
      if cursor < rs[k].start {
        gaps := gaps + [Bounds(cursor, rs[k].start)];
      }
      cursor := rs[k].end;
    }
    if cursor < n {
      gaps := gaps + [Bounds(cursor, n)];
    }
  }

  /** What `gaps` must be, as a set of positions and as a list. */
  ghost predicate GapsOf(gaps: seq<TokenRange>, cursor: int, n: int, covered: set<int>) {
    && Canonical(gaps) && Within(gaps, n)
    && (forall i :: 0 <= i < |gaps| ==> cursor <= gaps[i].start)
    && Union(gaps) == Interval(cursor, n) - covered
  }

  lemma {:induction false} ComplementFromMeaning(cursor: nat, n: nat, rs: seq<TokenRange>)
    requires Ordered(rs) && Within(rs, n) && cursor <= n
    requires rs != [] ==> cursor <= rs[0].start
    ensures GapsOf(ComplementFrom(cursor, n, rs), cursor, n, Union(rs))
    decreases |rs|
  {
    if rs == [] {
      UnionOfOne(Bounds(cursor, n));
    } else {
      ComplementFromMeaning(rs[0].end, n, rs[1..]);
      PrependGap(cursor, n, rs, ComplementFrom(rs[0].end, n, rs[1..]));
    }
  }

  lemma LaterPositions(rs: seq<TokenRange>)
    requires Disjoint(rs) && rs != []
    ensures forall p :: p in Union(rs[1..]) ==> rs[0].end <= p
  {
  }

  function GapBefore(cursor: nat, start: nat): (head: seq<TokenRange>) {
    if cursor < start then [Bounds(cursor, start)] else []
  }

  /** The positions of the new gap list. */
  lemma GapPositions(cursor: nat, n: nat, rs: seq<TokenRange>, tail: seq<TokenRange>)
    requires Ordered(rs) && Within(rs, n) && rs != [] && cursor <= rs[0].start
    requires Union(tail) == Interval(rs[0].end, n) - Union(rs[1..])
    ensures Union(GapBefore(cursor, rs[0].start) + tail) == Interval(cursor, n) - Union(rs)
  {
    var head := GapBefore(cursor, rs[0].start);
    UnionOfOne(Bounds(cursor, rs[0].start));
    UnionOfOne(rs[0]);
    UnionAppend(head, tail);
    UnionAppend([rs[0]], rs[1..]);
    assert rs == [rs[0]] + rs[1..];
    assert Union(head) == Interval(cursor, rs[0].start);
    LaterPositions(rs);
  }

  lemma PrependGap(cursor: nat, n: nat, rs: seq<TokenRange>, tail: seq<TokenRange>)
    requires Ordered(rs) && Within(rs, n) && rs != [] && cursor <= rs[0].start
    requires GapsOf(tail, rs[0].end, n, Union(rs[1..]))
    ensures GapsOf(GapBefore(cursor, rs[0].start) + tail, cursor, n, Union(rs))
  {
    GapPositions(cursor, n, rs, tail);
    assert rs[0].start < rs[0].end <= n;
  }

  /** The complement covers exactly the prompt rows that `rs` does not. */
  lemma ComplementMeaning(n: nat, rs: seq<TokenRange>)
    requires Ordered(rs) && Within(rs, n)
    ensures Canonical(Complement(n, rs)) && Within(Complement(n, rs), n)
    ensures Union(Complement(n, rs)) == Interval(0, n) - Union(rs)
  {
    ComplementFromMeaning(0, n, rs);
  }

  /** Rows and complement rows add up to the prompt. */
  lemma ComplementCounts(n: nat, rs: seq<TokenRange>)
    requires Ordered(rs) && Within(rs, n)
    ensures TokenSum(rs) + TokenSum(Complement(n, rs)) == n
  {
    ComplementMeaning(n, rs);
    var gaps := Complement(n, rs);
    SumIsUnionSize(rs);
    SumIsUnionSize(gaps);
    UnionBounded(rs, n);
    IntervalSize(0, n);
    assert Interval(0, n) == Union(rs) + Union(gaps) && Union(rs) !! Union(gaps);
  }

  /** Complementing twice gives the canonical form of the original. */
  lemma ComplementTwice(n: nat, rs: seq<TokenRange>, merged: seq<TokenRange>)
    requires Ordered(rs) && Within(rs, n)
    requires Canonical(merged) && Union(merged) == Union(rs)
    ensures Complement(n, Complement(n, rs)) == merged
  {
    ComplementMeaning(n, rs);
    ComplementMeaning(n, Complement(n, rs));
    UnionBounded(rs, n);
    assert Interval(0, n) - (Interval(0, n) - Union(rs)) == Union(rs);
    CanonicalUnique(Complement(n, Complement(n, rs)), merged);
  }

  // ----- sums do not depend on order

  lemma {:induction false} TokenSumRemove(rs: seq<TokenRange>, i: nat)
    requires i < |rs|
    ensures TokenSum(rs) == TokenSum(rs[..i] + rs[i + 1..]) + Len(rs[i])
  {
    if i == |rs| - 1 {
      assert rs[..i] + rs[i + 1..] == rs[..i];
    } else {
      var front, last := rs[..|rs| - 1], rs[|rs| - 1];
      TokenSumRemove(front, i);
      var less := rs[..i] + rs[i + 1..];
      assert less[..|less| - 1] == front[..i] + front[i + 1..];
    }
  }

  lemma {:induction false} TokenSumBag(a: seq<TokenRange>, b: seq<TokenRange>)
    requires multiset(a) <= multiset(b)
    ensures TokenSum(a) <= TokenSum(b)
    ensures multiset(a) == multiset(b) ==> TokenSum(a) == TokenSum(b)
  {
    if a == [] {
      assert multiset(a) == multiset(b) ==> |multiset(b)| == 0;
    } else {
      var front, x := a[..|a| - 1], a[|a| - 1];
      assert a == front + [x];
      assert x in multiset(b);
      var i :| 0 <= i < |b| && b[i] == x;
      var rest := b[..i] + b[i + 1..];
      assert b == b[..i] + [x] + b[i + 1..];
      assert multiset(rest) == multiset(b) - multiset{x};
      TokenSumBag(front, rest);
      TokenSumRemove(b, i);
    }
  }

  lemma {:induction false} TokenSumAppend(a: seq<TokenRange>, b: seq<TokenRange>)
    ensures TokenSum(a + b) == TokenSum(a) + TokenSum(b)
  {
    if b == [] {
      assert a + b == a;
    } else {
      TokenSumAppend(a, b[..|b| - 1]);
      assert (a + b)[..|a + b| - 1] == a + b[..|b| - 1];
    }
  }
}
