/** Lists of ranges that follow one another without gap or overlap. */
module Tilings {
  import opened Ranges

  /** `rs` runs from `lo` to `hi`, each range starting where the one before it ends. */
  ghost predicate Tiles(rs: seq<TokenRange>, lo: int, hi: int) {
    if rs == [] then lo == hi
    else
      var last := rs[|rs| - 1];
      last.start < last.end && last.end == hi && Tiles(rs[..|rs| - 1], lo, last.start)
  }

  lemma TilesAppend(rs: seq<TokenRange>, r: TokenRange, lo: int)
    requires Tiles(rs, lo, r.start) && r.start < r.end
    ensures Tiles(rs + [r], lo, r.end)
  {
    assert (rs + [r])[..|rs|] == rs;
  }

  /** A tiling covers every position of the stretch exactly once. */
  lemma {:induction false} TilesMeaning(rs: seq<TokenRange>, lo: int, hi: int)
    requires Tiles(rs, lo, hi)
    ensures lo <= hi && Ordered(rs) && Within(rs, hi)
    ensures forall i :: 0 <= i < |rs| ==> lo <= rs[i].start
    ensures Union(rs) == Interval(lo, hi)
  {
    if rs != [] {
      var front, last := rs[..|rs| - 1], rs[|rs| - 1];
      TilesMeaning(front, lo, last.start);
      assert rs == front + [last];
      UnionSplit(front, last);
    }
  }

  lemma TilesSum(rs: seq<TokenRange>, lo: int, hi: int)
    requires Tiles(rs, lo, hi)
    ensures TokenSum(rs) == hi - lo
  {
    TilesMeaning(rs, lo, hi);
    SumIsUnionSize(rs);
    IntervalSize(lo, hi);
  }

  // ----- the converse: every position once, sorted, is a tiling

  ghost predicate StartsSorted(rs: seq<TokenRange>) {
    forall i, j :: 0 <= i < j < |rs| ==> rs[i].start <= rs[j].start
  }

  lemma {:induction false} UnionAtMostSum(rs: seq<TokenRange>)
    ensures |Union(rs)| <= TokenSum(rs)
  {
    if rs != [] {
      var front, last := rs[..|rs| - 1], rs[|rs| - 1];
      UnionAtMostSum(front);
      LastAdds(rs);
    } else {
      assert Union(rs) == {};
    }
  }

  lemma LastAdds(rs: seq<TokenRange>)
    requires rs != []
    ensures var front, last := rs[..|rs| - 1], rs[|rs| - 1];
      && |Union(rs)| <= |Union(front)| + Len(last)
      && (|Union(rs)| == |Union(front)| + Len(last) ==> Union(front) !! Points(last))
  {
    var front, last := rs[..|rs| - 1], rs[|rs| - 1];
    assert rs == front + [last];
    UnionSplit(front, last);
    IntervalSize(last.start, last.end);
    var added := Points(last) - Union(front);
    assert Union(rs) == Union(front) + added;
    assert Union(front) !! added;
    SubsetSize(added, Points(last));
  }

  lemma {:induction false} NoSlackNoOverlap(rs: seq<TokenRange>)
    requires NonEmpty(rs) && StartsSorted(rs) && TokenSum(rs) <= |Union(rs)|
    ensures Disjoint(rs)
  {
    if rs != [] {
      var front, last := rs[..|rs| - 1], rs[|rs| - 1];
      UnionAtMostSum(front);
      LastAdds(rs);
      NoSlackNoOverlap(front);
      forall i | 0 <= i < |front|
        ensures front[i].end <= last.start
      {
        StartsBeforeEnds(front, last, i);
      }
    }
  }

  lemma StartsBeforeEnds(front: seq<TokenRange>, last: TokenRange, i: nat)
    requires i < |front| && front[i].start <= last.start < last.end
    requires Union(front) !! Points(last)
    ensures front[i].end <= last.start
  {
    assert InBounds(front[i].start, front[i].end, last.start) ==> Covers(front, last.start);
    assert last.start in Points(last);
  }

  lemma {:induction false} DisjointCoverTiles(rs: seq<TokenRange>, lo: int, hi: int)
    requires lo <= hi && Ordered(rs) && Union(rs) == Interval(lo, hi)
    ensures Tiles(rs, lo, hi)
  {
    if rs == [] {
      IntervalSize(lo, hi);
    } else {
      var front, last := rs[..|rs| - 1], rs[|rs| - 1];
      LastReachesEnd(rs, lo, hi);
      UnionFront(rs);
      assert Union(front) == Interval(lo, last.start);
      DisjointCoverTiles(front, lo, last.start);
    }
  }

  lemma LastReachesEnd(rs: seq<TokenRange>, lo: int, hi: int)
    requires rs != [] && Ordered(rs) && Union(rs) == Interval(lo, hi)
    ensures rs[|rs| - 1].end == hi && lo <= rs[|rs| - 1].start
  {
    var last := rs[|rs| - 1];
    assert InBounds(last.start, last.end, last.start) && InBounds(last.start, last.end, last.end - 1);
    assert last.start in Union(rs) && last.end - 1 in Union(rs);
    assert hi - 1 in Union(rs);
    var i :| 0 <= i < |rs| && InBounds(rs[i].start, rs[i].end, hi - 1);
  }

  /** Sorted, covering the prompt, and as long as the prompt: that is a tiling. */
  lemma TilesFromCounts(rs: seq<TokenRange>, n: nat)
    requires NonEmpty(rs) && StartsSorted(rs) && Union(rs) == Interval(0, n) && TokenSum(rs) == n
    ensures Tiles(rs, 0, n)
  {
    IntervalSize(0, n);
    NoSlackNoOverlap(rs);
    DisjointCoverTiles(rs, 0, n);
  }
}
