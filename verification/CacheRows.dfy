/** Copying selected rows into one cache component, as a function on its contents. */
module CacheRows {
  import opened Order
  import opened Ranges
  import opened ModelTarget
  import opened Tilings
  import opened Scatter
  import opened SelectiveWrites
  import opened WritePlanning

  /** One token's key or value heads. */
  type Row = seq<real>

  function Put(cache: seq<Row>, slot: nat, rows: seq<Row>): (r: seq<Row>)
    requires slot + |rows| <= |cache|
    ensures |r| == |cache|
  {
    seq(|cache|, i requires 0 <= i < |cache| => if slot <= i < slot + |rows| then rows[i - slot] else cache[i])
  }

  predicate InCache(q: Span, slots: nat, rows: nat) {
    q.slotStart + Len(q.target) <= slots && q.target.end <= rows
  }

  predicate AllFit(pieces: seq<Span>, slots: nat, rows: nat) {
    forall j :: 0 <= j < |pieces| ==> InCache(pieces[j], slots, rows)
  }

  function RowsOf(q: Span, source: seq<Row>): (r: seq<Row>)
    requires q.target.end <= |source|
    ensures |r| == Len(q.target)
  {
    source[q.target.start..q.target.end]
  }

  /** The contents after copying the pieces in order. */
  function Apply(cache: seq<Row>, pieces: seq<Span>, source: seq<Row>): (r: seq<Row>)
    requires AllFit(pieces, |cache|, |source|)
    ensures |r| == |cache|
  {
    if pieces == [] then cache
    else
      var last := pieces[|pieces| - 1];
      Put(Apply(cache, pieces[..|pieces| - 1], source), last.slotStart, RowsOf(last, source))
  }

  lemma ApplyNext(cache: seq<Row>, pieces: seq<Span>, source: seq<Row>, k: nat)
    requires AllFit(pieces, |cache|, |source|) && k < |pieces|
    ensures Apply(cache, pieces[..k + 1], source)
      == Put(Apply(cache, pieces[..k], source), pieces[k].slotStart, RowsOf(pieces[k], source))
  {
    assert pieces[..k + 1][..k] == pieces[..k];
  }

  // ----- meaning

  /** Every row of every piece goes to the slot its position owns. */
  ghost predicate Consistent(pieces: seq<Span>, slots: seq<nat>) {
    forall j :: 0 <= j < |pieces| ==> PieceAgrees(pieces[j], slots)
  }

  ghost predicate PieceAgrees(q: Span, slots: seq<nat>) {
    forall p :: InBounds(q.target.start, q.target.end, p) ==>
      p < |slots| && slots[p] == q.slotStart + (p - q.target.start)
  }

  /** `after` is `before` with exactly the rows in `chosen` replaced by their source rows. */
  ghost predicate Refreshed(before: seq<Row>, after: seq<Row>, slots: seq<nat>, chosen: set<int>, source: seq<Row>) {
    && |after| == |before|
    && (forall p :: 0 <= p < |slots| && p < |source| && p in chosen && slots[p] < |after| ==>
      after[slots[p]] == source[p])
    && (forall i :: 0 <= i < |after| && !Owned(slots, chosen, i) ==> after[i] == before[i])
  }

  ghost predicate Owned(slots: seq<nat>, chosen: set<int>, i: int) {
    exists p :: 0 <= p < |slots| && p in chosen && slots[p] == i
  }

  lemma ConsistentFront(pieces: seq<Span>, slots: seq<nat>)
    requires Consistent(pieces, slots) && pieces != []
    ensures Consistent(pieces[..|pieces| - 1], slots)
  {
    var front := pieces[..|pieces| - 1];
    forall j | 0 <= j < |front|
      ensures PieceAgrees(front[j], slots)
    {
      assert PieceAgrees(pieces[j], slots);
    }
  }

  /** Within one piece, a slot belongs to the position it was cut for. */
  lemma PieceSlotOwner(q: Span, slots: seq<nat>, i: nat, p: nat)
    requires PieceAgrees(q, slots) && Distinct(slots) && p < |slots| && slots[p] == i
    ensures InBounds(q.slotStart, q.slotStart + Len(q.target), i) <==> InBounds(q.target.start, q.target.end, p)
    ensures InBounds(q.target.start, q.target.end, p) ==> i - q.slotStart == p - q.target.start
  {
    if InBounds(q.slotStart, q.slotStart + Len(q.target), i) {
      var owner := q.target.start + (i - q.slotStart);
      assert InBounds(q.target.start, q.target.end, owner);
      assert slots[owner] == slots[p];
    }
  }

  lemma PutAt(now: seq<Row>, q: Span, source: seq<Row>, i: nat)
    requires InCache(q, |now|, |source|) && i < |now|
    ensures InBounds(q.slotStart, q.slotStart + Len(q.target), i) ==>
      Put(now, q.slotStart, RowsOf(q, source))[i] == source[q.target.start + (i - q.slotStart)]
    ensures !InBounds(q.slotStart, q.slotStart + Len(q.target), i) ==>
      Put(now, q.slotStart, RowsOf(q, source))[i] == now[i]
  {
  }

  /** A slot holds the last written row of the position that owns it. */
  lemma {:induction false} AppliedAt(
      cache: seq<Row>, pieces: seq<Span>, source: seq<Row>, slots: seq<nat>, i: nat, p: nat)
    requires AllFit(pieces, |cache|, |source|) && Consistent(pieces, slots) && Distinct(slots)
    requires i < |cache| && p < |slots| && slots[p] == i && p in Union(Targets(pieces))
    ensures p < |source| && Apply(cache, pieces, source)[i] == source[p]
  {
    LastOrFront(pieces, p);
    var front, last := pieces[..|pieces| - 1], pieces[|pieces| - 1];
    PieceSlotOwner(last, slots, i, p);
    PutAt(Apply(cache, front, source), last, source, i);
    if !InBounds(last.target.start, last.target.end, p) {
      ConsistentFront(pieces, slots);
      AppliedAt(cache, front, source, slots, i, p);
    }
  }

  /** A written position has a slot inside the cache and a row in the source. */
  lemma WrittenFits(pieces: seq<Span>, slots: seq<nat>, cacheSlots: nat, rows: nat, p: nat)
    requires AllFit(pieces, cacheSlots, rows) && Consistent(pieces, slots) && p in Union(Targets(pieces))
    ensures p < |slots| && slots[p] < cacheSlots && p < rows
  {
    var targets := Targets(pieces);
    var j :| 0 <= j < |targets| && InBounds(targets[j].start, targets[j].end, p);
    assert targets[j] == TargetOf(pieces[j]);
    assert PieceAgrees(pieces[j], slots) && InCache(pieces[j], cacheSlots, rows);
  }

  lemma LastOrFront(pieces: seq<Span>, p: int)
    requires p in Union(Targets(pieces))
    ensures pieces != []
    ensures InBounds(pieces[|pieces| - 1].target.start, pieces[|pieces| - 1].target.end, p)
      || p in Union(Targets(pieces[..|pieces| - 1]))
  {
    assert pieces != [] by {
      assert Targets([]) == [];
    }
    var front, last := pieces[..|pieces| - 1], pieces[|pieces| - 1];
    assert pieces == front + [last];
    AppendTarget(front, last);
    UnionSplit(Targets(front), last.target);
  }

  lemma PieceOwns(pieces: seq<Span>, slots: seq<nat>, j: nat, i: nat)
    requires Consistent(pieces, slots) && j < |pieces|
      && InBounds(pieces[j].slotStart, pieces[j].slotStart + Len(pieces[j].target), i)
    ensures Owned(slots, Union(Targets(pieces)), i)
  {
    assert PieceAgrees(pieces[j], slots);
    var q := pieces[j].target.start + (i - pieces[j].slotStart);
    assert InBounds(pieces[j].target.start, pieces[j].target.end, q);
    PieceCovers(pieces, j, q);
    assert slots[q] == i;
  }

  lemma {:induction false} UntouchedAt(cache: seq<Row>, pieces: seq<Span>, source: seq<Row>, i: nat)
    requires AllFit(pieces, |cache|, |source|) && i < |cache|
    requires forall j :: 0 <= j < |pieces| ==>
      !InBounds(pieces[j].slotStart, pieces[j].slotStart + Len(pieces[j].target), i)
    ensures Apply(cache, pieces, source)[i] == cache[i]
  {
    if pieces != [] {
      UntouchedAt(cache, pieces[..|pieces| - 1], source, i);
      var last := pieces[|pieces| - 1];
      assert !InBounds(last.slotStart, last.slotStart + Len(last.target), i);
    }
  }

  /** Copying the pieces refreshes exactly the rows they cover. */
  lemma AppliedIsRefreshed(cache: seq<Row>, pieces: seq<Span>, source: seq<Row>, slots: seq<nat>)
    requires AllFit(pieces, |cache|, |source|) && Consistent(pieces, slots) && Distinct(slots)
    ensures Refreshed(cache, Apply(cache, pieces, source), slots, Union(Targets(pieces)), source)
  {
    var chosen, after := Union(Targets(pieces)), Apply(cache, pieces, source);
    forall p | 0 <= p < |slots| && p < |source| && p in chosen && slots[p] < |after|
      ensures after[slots[p]] == source[p]
    {
      AppliedAt(cache, pieces, source, slots, slots[p], p);
    }
    forall i | 0 <= i < |after| && !Owned(slots, chosen, i)
      ensures after[i] == cache[i]
    {
      forall j | 0 <= j < |pieces|
        ensures !InBounds(pieces[j].slotStart, pieces[j].slotStart + Len(pieces[j].target), i)
      {
        if InBounds(pieces[j].slotStart, pieces[j].slotStart + Len(pieces[j].target), i) {
          PieceOwns(pieces, slots, j, i);
        }
      }
      UntouchedAt(cache, pieces, source, i);
    }
  }

  // ----- interrupted copying

  /** Slot `i` may hold `row` because some piece writes that row there. */
  ghost predicate WrittenBy(pieces: seq<Span>, source: seq<Row>, i: int, row: Row) {
    exists j, p :: 0 <= j < |pieces| && InBounds(pieces[j].target.start, pieces[j].target.end, p) && 0 <= p < |source|
      && pieces[j].slotStart + (p - pieces[j].target.start) == i && row == source[p]
  }

  /** Every slot is as before, or holds the row it was meant to receive. */
  ghost predicate PartlyWritten(before: seq<Row>, after: seq<Row>, pieces: seq<Span>, source: seq<Row>) {
    && |after| == |before|
    && forall i :: 0 <= i < |after| ==> after[i] == before[i] || WrittenBy(pieces, source, i, after[i])
  }

  lemma PutIsPartial(before: seq<Row>, now: seq<Row>, pieces: seq<Span>, source: seq<Row>, k: nat, count: nat)
    requires AllFit(pieces, |now|, |source|) && PartlyWritten(before, now, pieces, source)
    requires k < |pieces| && count <= Len(pieces[k].target)
    ensures PartlyWritten(before, Put(now, pieces[k].slotStart, RowsOf(pieces[k], source)[..count]), pieces, source)
  {
    var q := pieces[k];
    var after := Put(now, q.slotStart, RowsOf(q, source)[..count]);
    forall i | 0 <= i < |after|
      ensures after[i] == before[i] || WrittenBy(pieces, source, i, after[i])
    {
      if q.slotStart <= i < q.slotStart + count {
        var p := q.target.start + (i - q.slotStart);
        assert after[i] == RowsOf(q, source)[i - q.slotStart] == source[p];
        assert InBounds(pieces[k].target.start, pieces[k].target.end, p);
      } else {
        assert after[i] == now[i];
      }
    }
  }

  lemma {:induction false} ApplyIsPartial(before: seq<Row>, pieces: seq<Span>, source: seq<Row>, k: nat)
    requires AllFit(pieces, |before|, |source|) && k <= |pieces|
    ensures PartlyWritten(before, Apply(before, pieces[..k], source), pieces, source)
  {
    if k > 0 {
      ApplyIsPartial(before, pieces, source, k - 1);
      ApplyNext(before, pieces, source, k - 1);
      var rows := RowsOf(pieces[k - 1], source);
      assert rows[..|rows|] == rows;
      PutIsPartial(before, Apply(before, pieces[..k - 1], source), pieces, source, k - 1, |rows|);
    }
  }

  lemma WriterOwns(pieces: seq<Span>, source: seq<Row>, slots: seq<nat>, i: int, row: Row) returns (q: nat)
    requires WrittenBy(pieces, source, i, row) && Consistent(pieces, slots)
    ensures q in Union(Targets(pieces)) && q < |slots| && slots[q] == i
  {
    var j: nat, p: nat :| j < |pieces| && InBounds(pieces[j].target.start, pieces[j].target.end, p) && p < |source|
      && pieces[j].slotStart + (p - pieces[j].target.start) == i && row == source[p];
    PieceCovers(pieces, j, p);
    assert PieceAgrees(pieces[j], slots);
    q := p;
  }

  /** Even an interrupted copy never touches the slot of a row that is not recomputed. */
  lemma PartialKeepsCached(
      before: seq<Row>, after: seq<Row>, pieces: seq<Span>, source: seq<Row>, slots: seq<nat>, p: nat)
    requires PartlyWritten(before, after, pieces, source) && Consistent(pieces, slots) && Distinct(slots)
    requires p < |slots| && slots[p] < |after| && p !in Union(Targets(pieces))
    ensures after[slots[p]] == before[slots[p]]
  {
    if WrittenBy(pieces, source, slots[p], after[slots[p]]) {
      var q := WriterOwns(pieces, source, slots, slots[p], after[slots[p]]);
    }
  }

  lemma PieceCovers(pieces: seq<Span>, j: nat, q: int)
    requires j < |pieces| && InBounds(pieces[j].target.start, pieces[j].target.end, q)
    ensures q in Union(Targets(pieces))
  {
    assert Targets(pieces)[j] == TargetOf(pieces[j]);
    assert InBounds(Targets(pieces)[j].start, Targets(pieces)[j].end, q);
  }

  // ----- a planned layer's pieces

  /** The slots of a tiling, read position by position. */
  lemma {:induction false} SlotsAt(spans: seq<Span>, n: int, i: nat, p: int)
    requires Tiles(Targets(spans), 0, n) && i < |spans| && InBounds(spans[i].target.start, spans[i].target.end, p)
    ensures 0 <= p < |SlotsOf(spans)| && SlotsOf(spans)[p] == spans[i].slotStart + (p - spans[i].target.start)
  {
    var front, last := spans[..|spans| - 1], spans[|spans| - 1];
    FrontTargets(spans);
    TilesSum(Targets(front), 0, last.target.start);
    SlotCount(front);
    if i < |front| {
      SlotsAt(front, last.target.start, i, p);
    }
  }

  lemma PieceSlots(full: seq<Span>, ranges: seq<TokenRange>, n: int, q: Span, p: int)
    requires Tiles(Targets(full), 0, n) && q in AllPieces(full, ranges) && InBounds(q.target.start, q.target.end, p)
    ensures p < |SlotsOf(full)| && SlotsOf(full)[p] == q.slotStart + (p - q.target.start)
  {
    AllPiecesFit(full, ranges, q);
    var i :| 0 <= i < |full| && PieceOf(q, full[i]);
    SlotsAt(full, n, i, p);
  }

  lemma PiecesConsistent(full: seq<Span>, ranges: seq<TokenRange>, pieces: seq<Span>, slots: seq<nat>, n: int)
    requires Tiles(Targets(full), 0, n) && pieces == AllPieces(full, ranges) && slots == SlotsOf(full)
    ensures Consistent(pieces, slots)
  {
    forall j | 0 <= j < |pieces|
      ensures PieceAgrees(pieces[j], slots)
    {
      assert pieces[j] in pieces;
      forall p | InBounds(pieces[j].target.start, pieces[j].target.end, p)
        ensures p < |slots| && slots[p] == pieces[j].slotStart + (p - pieces[j].target.start)
      {
        PieceSlots(full, ranges, n, pieces[j], p);
      }
    }
  }

  lemma PlannedConsistent(plan: WritePlan, l: nat)
    requires ValidWritePlan(plan) && l < NUM_LAYERS
    ensures Consistent(ForLayer(plan.recompute, l), SlotsOf(ForLayer(plan.full, l)))
  {
    assert LayerPlanned(plan, l);
    var full := ForLayer(plan.full, l);
    PiecesConsistent(full, plan.rowPlan.layers[l].recompute, ForLayer(plan.recompute, l), SlotsOf(full),
      plan.rowPlan.promptTokens);
  }

  /** The planned writes of a layer cover exactly the rows to recompute. */
  lemma PlannedRows(plan: WritePlan, l: nat)
    requires ValidWritePlan(plan) && l < NUM_LAYERS
    ensures Union(Targets(ForLayer(plan.recompute, l))) == Union(plan.rowPlan.layers[l].recompute)
  {
    assert LayerPlanned(plan, l);
    var full, ranges := ForLayer(plan.full, l), plan.rowPlan.layers[l].recompute;
    assert plan.rowPlan.layers[l].Valid();
    TilesMeaning(Targets(full), 0, plan.rowPlan.promptTokens);
    AllPiecesCover(full, ranges);
    UnionBounded(ranges, plan.rowPlan.promptTokens);
  }
}
