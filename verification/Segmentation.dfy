/** Storage chunks and rolling query windows over document regions. */
module Segmentation {
  import opened Order
  import opened Ranges
  import opened Models
  import opened BlockArithmetic
  import opened Dedup

  /** Rows [lo, hi) of a region, in absolute request coordinates. */
  function Slice(region: TokenSegment, lo: nat, hi: nat): TokenSegment
    requires lo < hi <= |region.tokens|
  {
    Segment(Bounds(region.range.start + lo, region.range.start + hi), region.tokens[lo..hi])
  }

  /** Window sizes, strides and chunk sizes are checked to be positive. */
  type Size = n: nat | n > 0 witness 1

  // ----- the settings of the rolling windows

  datatype RollingResult = Roller(sizes: seq<Size>, stride: Size) | NoSizes | BadSize | BadStride

  predicate SizeGe(a: Size, b: Size) { a >= b }

  ghost predicate Falling(sizes: seq<Size>) { forall i, j :: 0 <= i < j < |sizes| ==> sizes[i] > sizes[j] }

  lemma FallingDistinct(sizes: seq<Size>)
    requires Falling(sizes)
    ensures Distinct(sizes)
  {
    forall i, j | 0 <= i < j < |sizes|
      ensures sizes[i] != sizes[j]
    {
    }
  }

  ghost predicate AllPositive(given: seq<int>) { forall s :: s in given ==> s > 0 }

  /** Refuses no sizes, sizes that are not positive and such a stride; otherwise keeps each size
      once, largest first. */
  method MakeRolling(given: seq<int>, stride: int) returns (r: RollingResult)
    ensures r.NoSizes? <==> given == []
    ensures r.BadSize? <==> !AllPositive(given)
    ensures r.BadStride? <==> given != [] && AllPositive(given) && stride <= 0
    ensures r.Roller? ==> r.stride == stride && Falling(r.sizes) && forall s: int :: s in r.sizes <==> s in given
  {
    if given == [] {
      return NoSizes;
    }
    if i :| 0 <= i < |given| && given[i] <= 0 {
      assert given[i] in given;
      return BadSize;
    }
    if stride <= 0 {
      return BadStride;
    }
    var sizes: seq<Size> := given;
    r := Roller(LargestFirst(sizes), stride);
    LargestFirstMeaning(sizes);
  }

  function LargestFirst(sizes: seq<Size>): seq<Size> { SortBy(SizeGe, Unique(sizes)) }

  lemma LargestFirstMeaning(sizes: seq<Size>)
    ensures Falling(LargestFirst(sizes)) && forall s: int :: s in LargestFirst(sizes) <==> s in sizes
  {
    var unique, ordered := Unique(sizes), LargestFirst(sizes);
    SortSorted(SizeGe, unique);
    SortMultiset(SizeGe, unique);
    SortElements(SizeGe, unique);
    UniqueDistinct(sizes);
    DistinctPermutation(unique, ordered);
    forall i, j | 0 <= i < j < |ordered|
      ensures ordered[i] > ordered[j]
    {
      assert SizeGe(ordered[i], ordered[j]);
    }
    forall s: Size
      ensures s in ordered <==> s in sizes
    {
      UniqueMembers(sizes, s);
    }
  }

  // ----- rolling query windows

  function WindowsAt(region: TokenSegment, at: nat, sizes: seq<Size>): seq<TokenSegment> {
    if sizes == [] then []
    else
      var w := sizes[|sizes| - 1];
      WindowsAt(region, at, sizes[..|sizes| - 1])
      + (if at + w <= |region.tokens| then [Slice(region, at, at + w)] else [])
  }

  function WindowsFrom(region: TokenSegment, sizes: seq<Size>, stride: Size, at: nat): seq<TokenSegment>
    decreases |region.tokens| - at
  {
    if at >= |region.tokens| then []
    else WindowsAt(region, at, sizes) + WindowsFrom(region, sizes, stride, at + stride)
  }

  function Rolling(regions: seq<TokenSegment>, sizes: seq<Size>, stride: Size): seq<TokenSegment> {
    if regions == [] then []
    else
      Rolling(regions[..|regions| - 1], sizes, stride) + WindowsFrom(regions[|regions| - 1], sizes, stride, 0)
  }

  method AppendWindows(region: TokenSegment, at: nat, sizes: seq<Size>, before: seq<TokenSegment>)
      returns (windows: seq<TokenSegment>)
    ensures windows == before + WindowsAt(region, at, sizes)
  {
    windows := before;
    for i := 0 to |sizes|
      invariant windows == before + WindowsAt(region, at, sizes[..i])
    {
      assert sizes[..i + 1][..i] == sizes[..i];
      var end := at + sizes[i];
      if end <= |region.tokens| {
        windows := windows + [Slice(region, at, end)];
      }
    }
    TakeAll(sizes);
  }

  method RollingQuerySegments(regions: seq<TokenSegment>, sizes: seq<Size>, stride: Size)
      returns (windows: seq<TokenSegment>)
    ensures windows == Rolling(regions, sizes, stride)
  {
    windows := [];
    for r := 0 to |regions|
      invariant windows == Rolling(regions[..r], sizes, stride)
    {
      var region := regions[r];
      ghost var before := windows;
      var at: nat := 0;
      while at < |region.tokens|
        invariant windows + WindowsFrom(region, sizes, stride, at) == before + WindowsFrom(region, sizes, stride, 0)
      {
        ghost var here, rest := WindowsAt(region, at, sizes), WindowsFrom(region, sizes, stride, at + stride);
        assert windows + (here + rest) == (windows + here) + rest;
        windows := AppendWindows(region, at, sizes, windows);
        at := at + stride;
      }
      assert regions[..r + 1][..r] == regions[..r];
    }
    TakeAll(regions);
  }

  /** `s` is the window of size `w` at the `k`-th stride of region `r`. */
  ghost predicate IsWindow(
      regions: seq<TokenSegment>, sizes: seq<Size>, stride: Size, s: TokenSegment, r: nat, k: nat, w: nat)
  {
    && r < |regions| && w in sizes && w > 0
    && k * stride + w <= |regions[r].tokens|
    && s == Slice(regions[r], k * stride, k * stride + w)
  }

  lemma {:induction false} WindowsAtPresent(region: TokenSegment, at: nat, sizes: seq<Size>, w: Size)
    requires w in sizes && at + w <= |region.tokens|
    ensures Slice(region, at, at + w) in WindowsAt(region, at, sizes)
  {
    if sizes[|sizes| - 1] != w {
      WindowsAtPresent(region, at, sizes[..|sizes| - 1], w);
    }
  }

  lemma {:induction false} WindowsAtSound(
      region: TokenSegment, at: nat, sizes: seq<Size>, s: TokenSegment) returns (w: Size)
    requires s in WindowsAt(region, at, sizes)
    ensures w in sizes && at + w <= |region.tokens| && s == Slice(region, at, at + w)
  {
    w := sizes[|sizes| - 1];
    if !(at + w <= |region.tokens| && s == Slice(region, at, at + w)) {
      w := WindowsAtSound(region, at, sizes[..|sizes| - 1], s);
    }
  }

  /** The position `k` strides after `at`. */
  function Nth(at: nat, stride: Size, k: nat): (p: nat)
    ensures p >= at
    decreases k
  {
    if k == 0 then at else Nth(at + stride, stride, k - 1)
  }

  lemma {:induction false} NthIs(at: nat, stride: Size, k: nat)
    ensures Nth(at, stride, k) == at + k * stride
    decreases k
  {
    if k > 0 {
      NthIs(at + stride, stride, k - 1);
      NextMultiple(k - 1, stride);
    }
  }

  lemma WindowsFromHas(region: TokenSegment, sizes: seq<Size>, stride: Size, at: nat, s: TokenSegment)
    requires at < |region.tokens|
    ensures s in WindowsFrom(region, sizes, stride, at)
       <==> s in WindowsAt(region, at, sizes) || s in WindowsFrom(region, sizes, stride, at + stride)
  {
  }

  lemma {:induction false} WindowsFromPresent(
      region: TokenSegment, sizes: seq<Size>, stride: Size, at: nat, k: nat, p: nat, s: TokenSegment)
    requires p == Nth(at, stride, k) < |region.tokens| && s in WindowsAt(region, p, sizes)
    ensures s in WindowsFrom(region, sizes, stride, at)
    decreases k
  {
    if k > 0 {
      WindowsFromPresent(region, sizes, stride, at + stride, k - 1, p, s);
    }
    WindowsFromHas(region, sizes, stride, at, s);
  }

  lemma {:induction false} WindowsFromSound(
      region: TokenSegment, sizes: seq<Size>, stride: Size, at: nat, s: TokenSegment)
      returns (k: nat, p: nat)
    requires s in WindowsFrom(region, sizes, stride, at)
    ensures p == Nth(at, stride, k) && s in WindowsAt(region, p, sizes)
    decreases |region.tokens| - at
  {
    if s in WindowsAt(region, at, sizes) {
      k, p := 0, at;
    } else {
      var j, q := WindowsFromSound(region, sizes, stride, at + stride, s);
      k, p := j + 1, q;
    }
  }

  /** A query window comes from some region. */
  lemma {:induction false} RollingFrom(
      regions: seq<TokenSegment>, sizes: seq<Size>, stride: Size, s: TokenSegment) returns (r: nat)
    requires s in Rolling(regions, sizes, stride)
    ensures r < |regions| && s in WindowsFrom(regions[r], sizes, stride, 0)
  {
    var last := |regions| - 1;
    if s in WindowsFrom(regions[last], sizes, stride, 0) {
      r := last;
    } else {
      r := RollingFrom(regions[..last], sizes, stride, s);
    }
  }

  lemma {:induction false} RollingHas(
      regions: seq<TokenSegment>, sizes: seq<Size>, stride: Size, s: TokenSegment, r: nat)
    requires r < |regions| && s in WindowsFrom(regions[r], sizes, stride, 0)
    ensures s in Rolling(regions, sizes, stride)
  {
    if r < |regions| - 1 {
      RollingHas(regions[..|regions| - 1], sizes, stride, s, r);
    }
  }

  /** The query windows are exactly the windows at stride multiples that fit. */
  lemma RollingWindows(regions: seq<TokenSegment>, sizes: seq<Size>, stride: Size, s: TokenSegment)
    ensures s in Rolling(regions, sizes, stride)
       <==> exists r, k, w :: IsWindow(regions, sizes, stride, s, r, k, w)
  {
    if s in Rolling(regions, sizes, stride) {
      var r, k, w := WindowOf(regions, sizes, stride, s);
    }
    if r: nat, k: nat, w: nat :| IsWindow(regions, sizes, stride, s, r, k, w) {
      WindowPresent(regions, sizes, stride, r, k, w);
    }
  }

  lemma WindowOf(regions: seq<TokenSegment>, sizes: seq<Size>, stride: Size, s: TokenSegment)
      returns (r: nat, k: nat, w: nat)
    requires s in Rolling(regions, sizes, stride)
    ensures IsWindow(regions, sizes, stride, s, r, k, w)
  {
    r := RollingFrom(regions, sizes, stride, s);
    var p;
    k, p := WindowsFromSound(regions[r], sizes, stride, 0, s);
    NthIs(0, stride, k);
    w := WindowsAtSound(regions[r], p, sizes, s);
  }

  lemma WindowAtPresent(regions: seq<TokenSegment>, sizes: seq<Size>, stride: Size, r: nat, k: nat, p: nat, w: Size)
    requires r < |regions| && w in sizes && p == Nth(0, stride, k) && p + w <= |regions[r].tokens|
    ensures Slice(regions[r], p, p + w) in Rolling(regions, sizes, stride)
  {
    var s := Slice(regions[r], p, p + w);
    WindowsAtPresent(regions[r], p, sizes, w);
    WindowsFromPresent(regions[r], sizes, stride, 0, k, p, s);
    RollingHas(regions, sizes, stride, s, r);
  }

  lemma WindowPresent(regions: seq<TokenSegment>, sizes: seq<Size>, stride: Size, r: nat, k: nat, w: Size)
    requires r < |regions| && w in sizes && k * stride + w <= |regions[r].tokens|
    ensures Slice(regions[r], k * stride, k * stride + w) in Rolling(regions, sizes, stride)
  {
    NthIs(0, stride, k);
    WindowAtPresent(regions, sizes, stride, r, k, Nth(0, stride, k), w);
  }

  // ----- windows are distinct

  ghost predicate DisjointRegions(regions: seq<TokenSegment>) {
    forall i, j :: 0 <= i < j < |regions| ==> !regions[i].range.Overlaps(regions[j].range)
  }

  lemma DistinctAppend<T>(a: seq<T>, b: seq<T>)
    requires Distinct(a) && Distinct(b) && forall x :: x in a ==> x !in b
    ensures Distinct(a + b)
  {
    var c := a + b;
    forall i, j | 0 <= i < j < |c|
      ensures c[i] != c[j]
    {
      assert i < |a| <= j ==> c[i] in a && c[j] in b;
    }
  }

  lemma {:induction false} WindowsAtDistinct(region: TokenSegment, at: nat, sizes: seq<Size>)
    requires Distinct(sizes)
    ensures Distinct(WindowsAt(region, at, sizes))
  {
    if sizes != [] {
      var front, w := sizes[..|sizes| - 1], sizes[|sizes| - 1];
      WindowsAtDistinct(region, at, front);
      forall s | s in WindowsAt(region, at, front)
        ensures s.range.end != region.range.start + at + w
      {
        var v := WindowsAtSound(region, at, front, s);
      }
      DistinctAppend(WindowsAt(region, at, front), if at + w <= |region.tokens| then [Slice(region, at, at + w)]
        else []);
    }
  }

  /** Windows taken from `at` on lie inside the region and start no earlier. */
  lemma WindowsFromWithin(region: TokenSegment, sizes: seq<Size>, stride: Size, at: nat, s: TokenSegment)
    requires s in WindowsFrom(region, sizes, stride, at)
    ensures region.range.start + at <= s.range.start < s.range.end <= region.range.end
  {
    var k, p := WindowsFromSound(region, sizes, stride, at, s);
    var w := WindowsAtSound(region, p, sizes, s);
  }

  ghost predicate StartAt(windows: seq<TokenSegment>, p: nat) {
    forall s :: s in windows ==> s.range.start == p
  }

  ghost predicate StartAfter(windows: seq<TokenSegment>, p: nat) {
    forall s :: s in windows ==> s.range.start > p
  }

  lemma WindowsAtStart(region: TokenSegment, at: nat, sizes: seq<Size>)
    ensures StartAt(WindowsAt(region, at, sizes), region.range.start + at)
  {
    forall s | s in WindowsAt(region, at, sizes)
      ensures s.range.start == region.range.start + at
    {
      var w := WindowsAtSound(region, at, sizes, s);
    }
  }

  lemma WindowsFromStart(region: TokenSegment, sizes: seq<Size>, stride: Size, at: nat, p: nat)
    requires p < region.range.start + at
    ensures StartAfter(WindowsFrom(region, sizes, stride, at), p)
  {
    forall s | s in WindowsFrom(region, sizes, stride, at)
      ensures s.range.start > p
    {
      WindowsFromWithin(region, sizes, stride, at, s);
    }
  }

  lemma LaterDistinct(here: seq<TokenSegment>, later: seq<TokenSegment>, p: nat)
    requires StartAt(here, p) && StartAfter(later, p) && Distinct(here) && Distinct(later)
    ensures Distinct(here + later)
  {
    DistinctAppend(here, later);
  }

  lemma {:induction false} WindowsFromDistinct(region: TokenSegment, sizes: seq<Size>, stride: Size, at: nat)
    requires Distinct(sizes)
    ensures Distinct(WindowsFrom(region, sizes, stride, at))
    decreases |region.tokens| - at
  {
    if at < |region.tokens| {
      var p, next := region.range.start + at, at + stride;
      WindowsAtDistinct(region, at, sizes);
      WindowsFromDistinct(region, sizes, stride, next);
      WindowsAtStart(region, at, sizes);
      WindowsFromStart(region, sizes, stride, next, p);
      LaterDistinct(WindowsAt(region, at, sizes), WindowsFrom(region, sizes, stride, next), p);
    }
  }

  /** Distinct sizes over disjoint regions never give the same window twice. */
  lemma {:induction false} RollingDistinct(regions: seq<TokenSegment>, sizes: seq<Size>, stride: Size)
    requires DisjointRegions(regions) && Distinct(sizes)
    ensures Distinct(Rolling(regions, sizes, stride))
  {
    if regions != [] {
      var front, last := regions[..|regions| - 1], regions[|regions| - 1];
      RollingDistinct(front, sizes, stride);
      WindowsFromDistinct(last, sizes, stride, 0);
      forall s | s in Rolling(front, sizes, stride)
        ensures s !in WindowsFrom(last, sizes, stride, 0)
      {
        var r := RollingFrom(front, sizes, stride, s);
        WindowsFromWithin(front[r], sizes, stride, 0, s);
        assert !regions[r].range.Overlaps(last.range);
        if s in WindowsFrom(last, sizes, stride, 0) {
          WindowsFromWithin(last, sizes, stride, 0, s);
        }
      }
      DistinctAppend(Rolling(front, sizes, stride), WindowsFrom(last, sizes, stride, 0));
    }
  }

  /** Every window lies inside its region. */
  lemma RollingWithin(regions: seq<TokenSegment>, sizes: seq<Size>, stride: Size, limit: nat, s: TokenSegment)
    requires s in Rolling(regions, sizes, stride) && forall r :: 0 <= r < |regions| ==> regions[r].range.end <= limit
    ensures s.range.end <= limit
  {
    var r := RollingFrom(regions, sizes, stride, s);
    WindowsFromWithin(regions[r], sizes, stride, 0, s);
  }

  // ----- storage chunks

  /** The chunk of a region that starts at `at`, unless a partial chunk is not wanted. */
  function ChunkAt(
      region: TokenSegment, chunkSize: Size, includePartial: bool, minimumPartial: nat, at: nat): seq<TokenSegment>
    requires at < |region.tokens|
  {
    var end := if at + chunkSize <= |region.tokens| then at + chunkSize else |region.tokens|;
    if end - at < chunkSize && (!includePartial || end - at < minimumPartial) then []
    else [Slice(region, at, end)]
  }

  function ChunksFrom(
      region: TokenSegment, chunkSize: Size, includePartial: bool, minimumPartial: nat, at: nat): seq<TokenSegment>
    decreases |region.tokens| - at
  {
    if at >= |region.tokens| then []
    else
      ChunkAt(region, chunkSize, includePartial, minimumPartial, at)
      + ChunksFrom(region, chunkSize, includePartial, minimumPartial, at + chunkSize)
  }

  function Chunks(
      regions: seq<TokenSegment>, chunkSize: Size, includePartial: bool, minimumPartial: nat): seq<TokenSegment>
  {
    if regions == [] then []
    else
      Chunks(regions[..|regions| - 1], chunkSize, includePartial, minimumPartial)
      + ChunksFrom(regions[|regions| - 1], chunkSize, includePartial, minimumPartial, 0)
  }

  method StorageChunks(regions: seq<TokenSegment>, chunkSize: Size, includePartial: bool, minimumPartial: nat)
      returns (chunks: seq<TokenSegment>)
    ensures chunks == Chunks(regions, chunkSize, includePartial, minimumPartial)
  {
    chunks := [];
    for r := 0 to |regions|
      invariant chunks == Chunks(regions[..r], chunkSize, includePartial, minimumPartial)
    {
      var region := regions[r];
      ghost var before := chunks;
      var at: nat := 0;
      while at < |region.tokens|
        invariant chunks + ChunksFrom(region, chunkSize, includePartial, minimumPartial, at)
               == before + ChunksFrom(region, chunkSize, includePartial, minimumPartial, 0)
      {
        ghost var rest := ChunksFrom(region, chunkSize, includePartial, minimumPartial, at + chunkSize);
        var piece := ChunkAt(region, chunkSize, includePartial, minimumPartial, at);
        assert chunks + (piece + rest) == (chunks + piece) + rest;
        chunks := chunks + piece;
        at := at + chunkSize;
      }
      assert regions[..r + 1][..r] == regions[..r];
    }
    TakeAll(regions);
  }

  // ----- which chunks there are

  /** The end of the chunk that starts at `at`. */
  function ChunkEnd(region: TokenSegment, chunkSize: Size, at: nat): nat {
    if at + chunkSize <= |region.tokens| then at + chunkSize else |region.tokens|
  }

  /** `s` is the `k`-th chunk of region `r`, full or long enough to be kept. */
  ghost predicate IsChunk(
      regions: seq<TokenSegment>, chunkSize: Size, includePartial: bool, minimumPartial: nat,
      s: TokenSegment, r: nat, k: nat)
  {
    && r < |regions| && k * chunkSize < |regions[r].tokens|
    && (k * chunkSize + chunkSize <= |regions[r].tokens|
        || (includePartial && k * chunkSize + minimumPartial <= |regions[r].tokens|))
    && s == Slice(regions[r], k * chunkSize, ChunkEnd(regions[r], chunkSize, k * chunkSize))
  }

  lemma ChunksFromHas(
      region: TokenSegment, chunkSize: Size, includePartial: bool, minimumPartial: nat, at: nat, s: TokenSegment)
    requires at < |region.tokens|
    ensures s in ChunksFrom(region, chunkSize, includePartial, minimumPartial, at)
       <==> s in ChunkAt(region, chunkSize, includePartial, minimumPartial, at)
            || s in ChunksFrom(region, chunkSize, includePartial, minimumPartial, at + chunkSize)
  {
  }

  lemma {:induction false} ChunksFromPresent(
      region: TokenSegment, chunkSize: Size, includePartial: bool, minimumPartial: nat,
      at: nat, k: nat, p: nat, s: TokenSegment)
    requires p == Nth(at, chunkSize, k) < |region.tokens|
    requires s in ChunkAt(region, chunkSize, includePartial, minimumPartial, p)
    ensures s in ChunksFrom(region, chunkSize, includePartial, minimumPartial, at)
    decreases k
  {
    if k > 0 {
      ChunksFromPresent(region, chunkSize, includePartial, minimumPartial, at + chunkSize, k - 1, p, s);
    }
    ChunksFromHas(region, chunkSize, includePartial, minimumPartial, at, s);
  }

  lemma {:induction false} ChunksFromSound(
      region: TokenSegment, chunkSize: Size, includePartial: bool, minimumPartial: nat, at: nat, s: TokenSegment)
      returns (k: nat, p: nat)
    requires s in ChunksFrom(region, chunkSize, includePartial, minimumPartial, at)
    ensures p == Nth(at, chunkSize, k) < |region.tokens|
    ensures s in ChunkAt(region, chunkSize, includePartial, minimumPartial, p)
    decreases |region.tokens| - at
  {
    if s in ChunkAt(region, chunkSize, includePartial, minimumPartial, at) {
      k, p := 0, at;
    } else {
      var j, q := ChunksFromSound(region, chunkSize, includePartial, minimumPartial, at + chunkSize, s);
      k, p := j + 1, q;
    }
  }

  lemma {:induction false} ChunksIn(
      regions: seq<TokenSegment>, chunkSize: Size, includePartial: bool, minimumPartial: nat, s: TokenSegment)
      returns (r: nat)
    requires s in Chunks(regions, chunkSize, includePartial, minimumPartial)
    ensures r < |regions| && s in ChunksFrom(regions[r], chunkSize, includePartial, minimumPartial, 0)
  {
    var last := |regions| - 1;
    if s in ChunksFrom(regions[last], chunkSize, includePartial, minimumPartial, 0) {
      r := last;
    } else {
      r := ChunksIn(regions[..last], chunkSize, includePartial, minimumPartial, s);
    }
  }

  lemma {:induction false} ChunksHave(
      regions: seq<TokenSegment>, chunkSize: Size, includePartial: bool, minimumPartial: nat, s: TokenSegment, r: nat)
    requires r < |regions| && s in ChunksFrom(regions[r], chunkSize, includePartial, minimumPartial, 0)
    ensures s in Chunks(regions, chunkSize, includePartial, minimumPartial)
  {
    if r < |regions| - 1 {
      ChunksHave(regions[..|regions| - 1], chunkSize, includePartial, minimumPartial, s, r);
    }
  }

  lemma ChunkAtIs(
      regions: seq<TokenSegment>, chunkSize: Size, includePartial: bool, minimumPartial: nat,
      s: TokenSegment, r: nat, k: nat, p: nat)
    requires p == k * chunkSize && r < |regions|
    ensures IsChunk(regions, chunkSize, includePartial, minimumPartial, s, r, k)
       <==> p < |regions[r].tokens| && s in ChunkAt(regions[r], chunkSize, includePartial, minimumPartial, p)
  {
  }

  lemma ChunkOf(regions: seq<TokenSegment>, chunkSize: Size, includePartial: bool, minimumPartial: nat, s: TokenSegment)
      returns (r: nat, k: nat)
    requires s in Chunks(regions, chunkSize, includePartial, minimumPartial)
    ensures IsChunk(regions, chunkSize, includePartial, minimumPartial, s, r, k)
  {
    r := ChunksIn(regions, chunkSize, includePartial, minimumPartial, s);
    var p;
    k, p := ChunksFromSound(regions[r], chunkSize, includePartial, minimumPartial, 0, s);
    NthIs(0, chunkSize, k);
    ChunkAtIs(regions, chunkSize, includePartial, minimumPartial, s, r, k, p);
  }

  lemma ChunkPresent(
      regions: seq<TokenSegment>, chunkSize: Size, includePartial: bool, minimumPartial: nat,
      s: TokenSegment, r: nat, k: nat)
    requires IsChunk(regions, chunkSize, includePartial, minimumPartial, s, r, k)
    ensures s in Chunks(regions, chunkSize, includePartial, minimumPartial)
  {
    NthIs(0, chunkSize, k);
    var p := Nth(0, chunkSize, k);
    ChunkAtIs(regions, chunkSize, includePartial, minimumPartial, s, r, k, p);
    ChunksFromPresent(regions[r], chunkSize, includePartial, minimumPartial, 0, k, p, s);
    ChunksHave(regions, chunkSize, includePartial, minimumPartial, s, r);
  }

  /** The storage chunks are exactly the pieces at chunk multiples that are full or kept. */
  lemma ChunksMeaning(
      regions: seq<TokenSegment>, chunkSize: Size, includePartial: bool, minimumPartial: nat, s: TokenSegment)
    ensures s in Chunks(regions, chunkSize, includePartial, minimumPartial)
       <==> exists r, k :: IsChunk(regions, chunkSize, includePartial, minimumPartial, s, r, k)
  {
    if s in Chunks(regions, chunkSize, includePartial, minimumPartial) {
      var r, k := ChunkOf(regions, chunkSize, includePartial, minimumPartial, s);
    }
    if r: nat, k: nat :| IsChunk(regions, chunkSize, includePartial, minimumPartial, s, r, k) {
      ChunkPresent(regions, chunkSize, includePartial, minimumPartial, s, r, k);
    }
  }

  // ----- what the chunks of a region hold

  function Concat(segments: seq<TokenSegment>): seq<TokenId> {
    if segments == [] then [] else segments[0].tokens + Concat(segments[1..])
  }

  /** The tokens left over after the full chunks that start at `at`. */
  function Remainder(region: TokenSegment, chunkSize: Size, at: nat): (n: nat)
    requires at <= |region.tokens|
    ensures n <= |region.tokens| - at
  {
    (|region.tokens| - at) % chunkSize
  }

  /** How much of a region its chunks keep: all of it, or all but an unwanted remainder. */
  function KeptEnd(
      region: TokenSegment, chunkSize: Size, includePartial: bool, minimumPartial: nat, at: nat): (end: nat)
    requires at <= |region.tokens|
    ensures at <= end <= |region.tokens|
  {
    var left := Remainder(region, chunkSize, at);
    if left == 0 || (includePartial && left >= minimumPartial) then |region.tokens| else |region.tokens| - left
  }

  lemma RemainderStep(n: nat, chunkSize: Size)
    ensures n >= chunkSize ==> (n - chunkSize) % chunkSize == n % chunkSize
    ensures n < chunkSize ==> n % chunkSize == n
  {
    if n >= chunkSize {
      DivFact(n - chunkSize, chunkSize);
      NextMultiple((n - chunkSize) / chunkSize, chunkSize);
      DivisionUnique(n, chunkSize, (n - chunkSize) / chunkSize + 1, (n - chunkSize) % chunkSize);
    } else {
      DivisionUnique(n, chunkSize, 0, n);
    }
  }

  lemma KeptStep(region: TokenSegment, chunkSize: Size, includePartial: bool, minimumPartial: nat, at: nat)
    requires at <= |region.tokens|
    ensures at + chunkSize <= |region.tokens| ==>
      KeptEnd(region, chunkSize, includePartial, minimumPartial, at)
      == KeptEnd(region, chunkSize, includePartial, minimumPartial, at + chunkSize)
    ensures |region.tokens| < at + chunkSize ==>
      KeptEnd(region, chunkSize, includePartial, minimumPartial, at)
      == if includePartial && |region.tokens| - at >= minimumPartial then |region.tokens| else at
  {
    RemainderStep(|region.tokens| - at, chunkSize);
  }

  lemma ConcatNext(piece: TokenSegment, rest: seq<TokenSegment>)
    ensures Concat([piece] + rest) == piece.tokens + Concat(rest)
  {
    assert ([piece] + rest)[1..] == rest;
  }

  lemma SliceParts<T>(s: seq<T>, lo: nat, mid: nat, hi: nat)
    requires lo <= mid <= hi <= |s|
    ensures s[lo..mid] + s[mid..hi] == s[lo..hi]
  {
  }

  /** The chunks of a region, read in order, are its tokens without loss or repetition, up to
      a remainder that is not wanted. */
  lemma {:induction false} ChunksConcat(
      region: TokenSegment, chunkSize: Size, includePartial: bool, minimumPartial: nat, at: nat)
    requires at <= |region.tokens|
    ensures Concat(ChunksFrom(region, chunkSize, includePartial, minimumPartial, at))
         == region.tokens[at..KeptEnd(region, chunkSize, includePartial, minimumPartial, at)]
    decreases |region.tokens| - at
  {
    KeptStep(region, chunkSize, includePartial, minimumPartial, at);
    if at + chunkSize <= |region.tokens| {
      ChunksConcat(region, chunkSize, includePartial, minimumPartial, at + chunkSize);
      ConcatFull(region, chunkSize, includePartial, minimumPartial, at,
                 KeptEnd(region, chunkSize, includePartial, minimumPartial, at + chunkSize));
    } else if at < |region.tokens| {
      LastChunk(region, chunkSize, includePartial, minimumPartial, at);
    }
  }

  lemma ConcatFull(
      region: TokenSegment, chunkSize: Size, includePartial: bool, minimumPartial: nat, at: nat, kept: nat)
    requires at + chunkSize <= kept <= |region.tokens|
    requires Concat(ChunksFrom(region, chunkSize, includePartial, minimumPartial, at + chunkSize))
          == region.tokens[at + chunkSize..kept]
    ensures Concat(ChunksFrom(region, chunkSize, includePartial, minimumPartial, at)) == region.tokens[at..kept]
  {
    ConcatNext(Slice(region, at, at + chunkSize),
               ChunksFrom(region, chunkSize, includePartial, minimumPartial, at + chunkSize));
    SliceParts(region.tokens, at, at + chunkSize, kept);
  }

  /** A region that ends within the chunk gives one partial chunk or none. */
  lemma LastChunk(region: TokenSegment, chunkSize: Size, includePartial: bool, minimumPartial: nat, at: nat)
    requires at < |region.tokens| < at + chunkSize
    ensures Concat(ChunksFrom(region, chunkSize, includePartial, minimumPartial, at))
         == region.tokens[at..if includePartial && |region.tokens| - at >= minimumPartial then |region.tokens| else at]
  {
    assert ChunksFrom(region, chunkSize, includePartial, minimumPartial, at + chunkSize) == [];
    var piece := ChunkAt(region, chunkSize, includePartial, minimumPartial, at);
    if piece != [] {
      ConcatNext(piece[0], []);
    }
  }

  /** The first chunk starts where the region does; another follows only a full one. */
  lemma FirstChunk(region: TokenSegment, chunkSize: Size, includePartial: bool, minimumPartial: nat, at: nat)
    requires ChunksFrom(region, chunkSize, includePartial, minimumPartial, at) != []
    ensures var chunks := ChunksFrom(region, chunkSize, includePartial, minimumPartial, at);
      var rest := ChunksFrom(region, chunkSize, includePartial, minimumPartial, at + chunkSize);
      && at < |region.tokens| && chunks == [chunks[0]] + rest
      && chunks[0].range.start == region.range.start + at && |chunks[0].tokens| <= chunkSize
      && (rest != [] ==> |chunks[0].tokens| == chunkSize)
  {
  }

  /** Side by side, every one full except perhaps the last, the first one at `start`. */
  ghost predicate SideBySide(chunks: seq<TokenSegment>, chunkSize: Size, start: nat) {
    && (chunks != [] ==> chunks[0].range.start == start)
    && (forall i :: 0 <= i < |chunks| ==> |chunks[i].tokens| <= chunkSize)
    && forall i :: 0 <= i < |chunks| - 1 ==> FullUpTo(chunks, chunkSize, i)
  }

  ghost predicate FullUpTo(chunks: seq<TokenSegment>, chunkSize: Size, i: nat)
    requires i + 1 < |chunks|
  {
    |chunks[i].tokens| == chunkSize && chunks[i].range.end == chunks[i + 1].range.start
  }

  lemma OneMore(first: TokenSegment, rest: seq<TokenSegment>, chunkSize: Size)
    requires |first.tokens| <= chunkSize && (rest != [] ==> |first.tokens| == chunkSize)
    requires SideBySide(rest, chunkSize, first.range.start + chunkSize)
    ensures SideBySide([first] + rest, chunkSize, first.range.start)
  {
    var chunks := [first] + rest;
    forall i | 0 <= i < |chunks| - 1
      ensures FullUpTo(chunks, chunkSize, i)
    {
      assert i > 0 ==> FullUpTo(rest, chunkSize, i - 1);
    }
  }

  /** The chunks of a region lie side by side, and every one is full except perhaps the last. */
  lemma {:induction false} ChunksAdjacent(
      region: TokenSegment, chunkSize: Size, includePartial: bool, minimumPartial: nat, at: nat)
    ensures SideBySide(ChunksFrom(region, chunkSize, includePartial, minimumPartial, at), chunkSize,
      region.range.start + at)
    decreases |region.tokens| - at
  {
    var chunks := ChunksFrom(region, chunkSize, includePartial, minimumPartial, at);
    if chunks != [] {
      FirstChunk(region, chunkSize, includePartial, minimumPartial, at);
      ChunksAdjacent(region, chunkSize, includePartial, minimumPartial, at + chunkSize);
      OneMore(chunks[0], ChunksFrom(region, chunkSize, includePartial, minimumPartial, at + chunkSize), chunkSize);
    }
  }
}
