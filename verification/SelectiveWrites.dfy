/** Splitting a full-prompt scatter into the rows a selective forward pass may write. */
module SelectiveWrites {
  import opened Order
  import opened Ranges
  import opened Models
  import opened ModelTarget
  import opened Tilings
  import opened HybridLayout
  import opened Scatter
  import opened RowSelection

  datatype WriteError =
    | EmptySpans
    | LayerSetMismatch
    | InvalidLayer
    | SpanOutOfBounds
    | RangeCoverageMismatch
    | InvalidPhysicalSlot
    | KindMismatch
    | SlotMappingLengthMismatch
    | SlotMappingValueMismatch
    /** Not a reported code: the lookup of a position that no span covers raises. */
    | UncoveredPosition

  datatype WriteResult<+T> = Planned(value: T) | Rejected(error: WriteError)

  datatype WritePlan = WritePlan(rowPlan: RowPlan, full: seq<LayerSpan>, recompute: seq<LayerSpan>)

  // ----- single spans

  ghost predicate ValidBlock(s: Span) {
    && s.target.start < s.target.end && Len(s.source) == Len(s.target)
    && s.blockSize > 0 && s.blockOffset + Len(s.target) <= s.blockSize
    && s.slotStart == s.blockId * s.blockSize + s.blockOffset
  }

  ghost predicate ValidSpan(s: LayerSpan, promptTokens: nat) {
    && s.layerIndex < NUM_LAYERS && s.span.kind == KindOf(s.layerIndex)
    && s.span.source.end <= MAX_CONTEXT_TOKENS && s.span.target.end <= promptTokens
    && ValidBlock(s.span)
  }

  method ValidateSpan(s: LayerSpan, promptTokens: nat) returns (r: WriteResult<()>)
    ensures r.Planned? <==> ValidSpan(s, promptTokens)
  {
    if s.layerIndex >= NUM_LAYERS {
      return Rejected(InvalidLayer);
    }
    if s.span.kind != KindOf(s.layerIndex) {
      return Rejected(KindMismatch);
    }
    var g := s.span;
    if Len(g.source) == 0 || Len(g.target) == 0 || Len(g.source) != Len(g.target)
       || g.source.end > MAX_CONTEXT_TOKENS || g.target.end > promptTokens {
      return Rejected(SpanOutOfBounds);
    }
    if g.blockSize <= 0 || g.blockOffset >= g.blockSize || g.blockOffset + Len(g.target) > g.blockSize
       || g.slotStart != g.blockId * g.blockSize + g.blockOffset {
      return Rejected(InvalidPhysicalSlot);
    }
    r := Planned(());
  }

  // ----- intersecting a span with the recompute ranges

  predicate Meets(s: Span, r: TokenRange) { Max(s.target.start, r.start) < Min(s.target.end, r.end) }

  /** The part of `s` inside `r`, with source, offset and slot moved along. */
  function Piece(s: Span, r: TokenRange): Span
    requires Meets(s, r)
  {
    var start, end := Max(s.target.start, r.start), Min(s.target.end, r.end);
    var offset := start - s.target.start;
    var sourceStart := s.source.start + offset;
    Span(s.groupId, s.kind, Bounds(sourceStart, sourceStart + (end - start)), Bounds(start, end),
         s.logicalBlock, s.blockId, s.blockSize, s.blockOffset + offset, s.slotStart + offset)
  }

  function Pieces(s: Span, ranges: seq<TokenRange>): seq<Span> {
    if ranges == [] then []
    else Pieces(s, ranges[..|ranges| - 1])
         + (if Meets(s, ranges[|ranges| - 1]) then [Piece(s, ranges[|ranges| - 1])] else [])
  }

  /** A piece keeps the shift from source to target, and its rows keep their slots. */
  ghost predicate PieceOf(q: Span, s: Span) {
    && s.target.start <= q.target.start < q.target.end <= s.target.end
    && Len(q.source) == Len(q.target)
    && q.source.start - s.source.start == q.target.start - s.target.start
    && q.slotStart - s.slotStart == q.target.start - s.target.start
    && q.blockOffset - s.blockOffset == q.target.start - s.target.start
    && q.blockId == s.blockId && q.blockSize == s.blockSize && q.logicalBlock == s.logicalBlock
    && q.groupId == s.groupId && q.kind == s.kind
  }

  lemma {:induction false} PiecesFit(s: Span, ranges: seq<TokenRange>, q: Span)
    requires q in Pieces(s, ranges)
    ensures PieceOf(q, s)
  {
    if q in Pieces(s, ranges[..|ranges| - 1]) {
      PiecesFit(s, ranges[..|ranges| - 1], q);
    }
  }

  lemma AppendTargets(a: seq<Span>, b: seq<Span>)
    ensures Targets(a + b) == Targets(a) + Targets(b)
  {
    MapAppend(TargetOf, a, b);
  }

  lemma OneTarget(s: Span)
    ensures Targets([s]) == [s.target]
  {
    MapOne(TargetOf, s);
  }

  lemma PiecePoints(s: Span, r: TokenRange)
    ensures Meets(s, r) ==> Points(Piece(s, r).target) == Points(s.target) * Points(r)
    ensures !Meets(s, r) ==> Points(s.target) * Points(r) == {}
  {
  }

  /** The pieces are the intersection, as sets of rows. */
  lemma {:induction false} PiecesCover(s: Span, ranges: seq<TokenRange>)
    ensures Union(Targets(Pieces(s, ranges))) == Points(s.target) * Union(ranges)
  {
    if ranges == [] {
      assert Union(ranges) == {} && Union(Targets([])) == {};
    } else {
      var front, r := ranges[..|ranges| - 1], ranges[|ranges| - 1];
      PiecesCover(s, front);
      assert ranges == front + [r];
      UnionSplit(front, r);
      PiecePoints(s, r);
      if Meets(s, r) {
        AppendTargets(Pieces(s, front), [Piece(s, r)]);
        OneTarget(Piece(s, r));
        UnionSplit(Targets(Pieces(s, front)), Piece(s, r).target);
      } else {
        assert Pieces(s, ranges) == Pieces(s, front);
      }
    }
  }

  method SplitSpan(s: Span, ranges: seq<TokenRange>) returns (output: seq<Span>)
    ensures output == Pieces(s, ranges)
  {
    output := [];
    for k := 0 to |ranges|
      invariant output == Pieces(s, ranges[..k])
    {
      assert ranges[..k + 1][..k] == ranges[..k];
      if Meets(s, ranges[k]) {
        output := output + [Piece(s, ranges[k])];
      }
    }
    TakeAll(ranges);
  }

  // ----- one layer

  function AllPieces(spans: seq<Span>, ranges: seq<TokenRange>): seq<Span> {
    if spans == [] then [] else AllPieces(spans[..|spans| - 1], ranges) + Pieces(spans[|spans| - 1], ranges)
  }

  lemma {:induction false} AllPiecesFit(spans: seq<Span>, ranges: seq<TokenRange>, q: Span)
    requires q in AllPieces(spans, ranges)
    ensures exists i :: 0 <= i < |spans| && PieceOf(q, spans[i])
  {
    if q in Pieces(spans[|spans| - 1], ranges) {
      PiecesFit(spans[|spans| - 1], ranges, q);
    } else {
      AllPiecesFit(spans[..|spans| - 1], ranges, q);
      var i :| 0 <= i < |spans| - 1 && PieceOf(q, spans[..|spans| - 1][i]);
      assert PieceOf(q, spans[i]);
    }
  }

  lemma {:induction false} AllPiecesCover(spans: seq<Span>, ranges: seq<TokenRange>)
    ensures Union(Targets(AllPieces(spans, ranges))) == Union(Targets(spans)) * Union(ranges)
  {
    if spans == [] {
      assert Union(Targets([])) == {};
    } else {
      var front, last := spans[..|spans| - 1], spans[|spans| - 1];
      AllPiecesCover(front, ranges);
      PiecesCover(last, ranges);
      AppendTargets(AllPieces(front, ranges), Pieces(last, ranges));
      UnionAppend(Targets(AllPieces(front, ranges)), Targets(Pieces(last, ranges)));
      assert spans == front + [last];
      AppendTarget(front, last);
      UnionSplit(Targets(front), last.target);
    }
  }

  method SplitAll(spans: seq<Span>, ranges: seq<TokenRange>) returns (output: seq<Span>)
    ensures output == AllPieces(spans, ranges)
  {
    output := [];
    for k := 0 to |spans|
      invariant output == AllPieces(spans[..k], ranges)
    {
      assert spans[..k + 1][..k] == spans[..k];
      var pieces := SplitSpan(spans[k], ranges);
      output := output + pieces;
    }
    TakeAll(spans);
  }

  /** Every prompt row lies in some span, and the spans have no row to spare. */
  ghost predicate CoversOnce(spans: seq<Span>, promptTokens: nat) {
    Union(Targets(spans)) == Interval(0, promptTokens) && TokenSum(Targets(spans)) == promptTokens
  }

  predicate ByStart(a: Span, b: Span) { a.target.start <= b.target.start }

  lemma SortedTargets(spans: seq<Span>)
    ensures var ordered := SortBy(ByStart, spans);
      && StartsSorted(Targets(ordered)) && multiset(ordered) == multiset(spans)
      && Union(Targets(ordered)) == Union(Targets(spans)) && TokenSum(Targets(ordered)) == TokenSum(Targets(spans))
  {
    var ordered := SortBy(ByStart, spans);
    SortSorted(ByStart, spans);
    SortMultiset(ByStart, spans);
    MapBag(TargetOf, ordered, spans);
    SameBag(Targets(ordered), Targets(spans));
    SameBag(Targets(spans), Targets(ordered));
    TokenSumBag(Targets(ordered), Targets(spans));
    forall i, j | 0 <= i < j < |ordered|
      ensures Targets(ordered)[i].start <= Targets(ordered)[j].start
    {
      assert ByStart(ordered[i], ordered[j]);
      assert Targets(ordered)[i] == TargetOf(ordered[i]) && Targets(ordered)[j] == TargetOf(ordered[j]);
    }
  }

  lemma SameBag(a: seq<TokenRange>, b: seq<TokenRange>)
    requires multiset(a) == multiset(b)
    ensures Union(a) <= Union(b)
  {
    forall r | r in a
      ensures r in b
    {
      assert r in multiset(b);
    }
    UnionOfSame(a, b);
  }

  ghost predicate AllNonEmpty(spans: seq<Span>) {
    forall i :: 0 <= i < |spans| ==> spans[i].target.start < spans[i].target.end
  }

  lemma TargetsNonEmpty(spans: seq<Span>)
    requires AllNonEmpty(spans)
    ensures NonEmpty(Targets(spans))
  {
    forall i | 0 <= i < |spans|
      ensures Targets(spans)[i].start < Targets(spans)[i].end
    {
      assert Targets(spans)[i] == TargetOf(spans[i]);
    }
  }

  lemma SortedNonEmpty(spans: seq<Span>)
    requires AllNonEmpty(spans)
    ensures AllNonEmpty(SortBy(ByStart, spans))
  {
    SortElements(ByStart, spans);
    forall i | 0 <= i < |SortBy(ByStart, spans)|
      ensures SortBy(ByStart, spans)[i].target.start < SortBy(ByStart, spans)[i].target.end
    {
      assert SortBy(ByStart, spans)[i] in spans;
    }
  }

  /** Sorted by start, exact coverage is a tiling and nothing else is. */
  lemma CoverageIsTiling(spans: seq<Span>, promptTokens: nat)
    requires AllNonEmpty(spans)
    ensures CoversOnce(spans, promptTokens) <==> Tiles(Targets(SortBy(ByStart, spans)), 0, promptTokens)
  {
    var ordered := SortBy(ByStart, spans);
    SortedTargets(spans);
    SortedNonEmpty(spans);
    TargetsNonEmpty(ordered);
    if CoversOnce(spans, promptTokens) {
      TilesFromCounts(Targets(ordered), promptTokens);
    }
    if Tiles(Targets(ordered), 0, promptTokens) {
      TilesMeaning(Targets(ordered), 0, promptTokens);
      TilesSum(Targets(ordered), 0, promptTokens);
    }
  }

  lemma {:induction false} TilesPrefix(rs: seq<TokenRange>, lo: int, hi: int, k: nat)
    requires Tiles(rs, lo, hi) && k < |rs|
    ensures Tiles(rs[..k], lo, rs[k].start)
  {
    if k < |rs| - 1 {
      TilesPrefix(rs[..|rs| - 1], lo, rs[|rs| - 1].start, k);
      assert rs[..|rs| - 1][..k] == rs[..k];
    }
  }

  lemma TilesEnd(rs: seq<TokenRange>, lo: int, a: int, b: int)
    requires Tiles(rs, lo, a) && Tiles(rs, lo, b)
    ensures a == b
  {
  }

  lemma TargetsTake(spans: seq<Span>, k: nat)
    requires k <= |spans|
    ensures Targets(spans)[..k] == Targets(spans[..k])
  {
  }

  /** Walks the sorted spans with a cursor; accepts exactly the exact coverings. */
  method ValidateLayerCoverage(spans: seq<Span>, promptTokens: nat) returns (r: WriteResult<seq<Span>>)
    requires AllNonEmpty(spans)
    ensures r.Planned? <==> CoversOnce(spans, promptTokens)
    ensures r.Planned? ==> Tiles(Targets(r.value), 0, promptTokens) && multiset(r.value) == multiset(spans)
  {
    var ordered := SortBy(ByStart, spans);
    SortedNonEmpty(spans);
    CoverageIsTiling(spans, promptTokens);
    var cursor := 0;
    for k := 0 to |ordered|
      invariant Tiles(Targets(ordered[..k]), 0, cursor)
    {
      CursorStep(ordered, k, cursor, promptTokens);
      if ordered[k].target.start != cursor {
        return Rejected(RangeCoverageMismatch);
      }
      cursor := ordered[k].target.end;
    }
    TakeAll(ordered);
    if cursor != promptTokens {
      if CoversOnce(spans, promptTokens) {
        TilesEnd(Targets(ordered), 0, cursor, promptTokens);
      }
      return Rejected(RangeCoverageMismatch);
    }
    SortMultiset(ByStart, spans);
    r := Planned(ordered);
  }

  lemma CursorStep(ordered: seq<Span>, k: nat, cursor: int, promptTokens: nat)
    requires AllNonEmpty(ordered) && k < |ordered| && Tiles(Targets(ordered[..k]), 0, cursor)
    ensures ordered[k].target.start == cursor ==> Tiles(Targets(ordered[..k + 1]), 0, ordered[k].target.end)
    ensures Tiles(Targets(ordered), 0, promptTokens) ==> ordered[k].target.start == cursor
  {
    TakeNext(ordered, k);
    AppendTarget(ordered[..k], ordered[k]);
    if ordered[k].target.start == cursor {
      TilesAppend(Targets(ordered[..k]), ordered[k].target, 0);
    }
    if Tiles(Targets(ordered), 0, promptTokens) {
      TilesPrefix(Targets(ordered), 0, promptTokens, k);
      TargetsTake(ordered, k);
      assert Targets(ordered)[k] == TargetOf(ordered[k]);
      TilesEnd(Targets(ordered[..k]), 0, cursor, ordered[k].target.start);
    }
  }
}
