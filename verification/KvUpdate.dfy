/** Writing recomputed rows into the paged caches: all layers at once after a full
    preflight, with copies that may fail part-way. */
module KvUpdate {
  import opened Order
  import opened Ranges
  import opened ModelTarget
  import opened Tilings
  import opened Scatter
  import opened SelectiveWrites
  import opened WritePlanning
  import opened CacheRows
  import opened BlockArithmetic

  /** One layer's paged cache: a row per slot for keys and for values. */
  datatype Cache = Cache(keys: array<Row>, values: array<Row>, blocks: nat, blockSize: nat)

  ghost predicate Shaped(c: Cache) {
    c.keys.Length == c.blocks * c.blockSize && c.values.Length == c.keys.Length && c.keys != c.values
  }

  datatype LayerInput = LayerInput(key: seq<Row>, value: seq<Row>, mapping: seq<int>)

  datatype UpdateError =
    | TensorSetMismatch
    | InvalidSourceShape
    | InvalidCacheShape
    | InvalidView
    | SlotMappingRefused
    | SessionInvalidState
    | SessionLayerOrderMismatch
    | SessionDuplicateLayer
    | SessionInvalidLayer
    | SessionIncomplete
    | MutationFailed

  datatype UpdateResult<+T> = Done(value: T) | Failed(error: UpdateError)

  datatype Receipt = Receipt(
    recomputedRows: nat,
    cachedRows: nat,
    writeSpans: nat,
    copiedKeyRows: nat,
    copiedValueRows: nat)

  /** An injected copy failure: after `copies` good copies the next one, or the final
      synchronisation, stops after `rows` rows. */
  datatype Fault = NoFault | FaultAt(copies: nat, rows: nat)

  predicate Survives(fault: Fault, copies: nat) { fault.NoFault? || fault.copies >= copies }

  function Remaining(fault: Fault, copies: nat): Fault
    requires Survives(fault, copies)
  {
    if fault.NoFault? then NoFault else FaultAt(fault.copies - copies, fault.rows)
  }

  /** The device synchronisation after the last copy; skipped when nothing was copied. */
  predicate SyncOk(fault: Fault, copies: nat) { copies == 0 || fault.NoFault? || fault.copies > 0 }

  // ----- contents

  datatype LayerState = LayerState(keys: seq<Row>, values: seq<Row>)

  ghost function Contents(c: Cache): LayerState
    reads c.keys, c.values
  {
    LayerState(c.keys[..], c.values[..])
  }

  ghost predicate Writable(s: LayerState, pieces: seq<Span>, input: LayerInput) {
    AllFit(pieces, |s.keys|, |input.key|) && AllFit(pieces, |s.values|, |input.value|)
  }

  ghost function LayerAfter(s: LayerState, pieces: seq<Span>, input: LayerInput): LayerState
    requires Writable(s, pieces, input)
  {
    LayerState(Apply(s.keys, pieces, input.key), Apply(s.values, pieces, input.value))
  }

  ghost predicate PartlyUpdated(before: LayerState, after: LayerState, pieces: seq<Span>, input: LayerInput) {
    PartlyWritten(before.keys, after.keys, pieces, input.key)
      && PartlyWritten(before.values, after.values, pieces, input.value)
  }

  // ----- preflight of one layer

  ghost predicate OneBlockSize(spans: seq<Span>, size: nat) {
    spans != [] && forall i :: 0 <= i < |spans| ==> spans[i].blockSize == size
  }

  ghost predicate BlocksExist(spans: seq<Span>, blocks: nat) {
    forall i :: 0 <= i < |spans| ==> spans[i].blockId < blocks
  }

  /** Everything the preflight checks for one layer. */
  ghost predicate Prepared(plan: WritePlan, l: nat, input: LayerInput, blocks: nat, blockSize: nat) {
    && MatchesPlan(plan, l, input.mapping)
    && |input.key| == plan.rowPlan.promptTokens && |input.value| == plan.rowPlan.promptTokens
    && OneBlockSize(ForLayer(plan.full, l), blockSize) && blocks > 0
    && BlocksExist(ForLayer(plan.recompute, l), blocks)
  }

  lemma BlockFits(blockId: nat, blocks: nat, size: nat, offset: nat, count: nat)
    requires blockId < blocks && offset + count <= size
    ensures blockId * size + offset + count <= blocks * size
  {
    if size > 0 {
      MulGrow(blocks - blockId, size);
      Distribute(blocks, blockId, size);
    }
  }

  lemma PieceFits(full: seq<Span>, ranges: seq<TokenRange>, q: Span, n: nat, blocks: nat, size: nat)
    requires Tiles(Targets(full), 0, n) && AllBlocksValid(full) && OneBlockSize(full, size)
    requires q in AllPieces(full, ranges) && q.blockId < blocks
    ensures InCache(q, blocks * size, n)
  {
    AllPiecesFit(full, ranges, q);
    var i :| 0 <= i < |full| && PieceOf(q, full[i]);
    assert ValidBlock(full[i]);
    BlockFits(q.blockId, blocks, size, q.blockOffset, Len(q.target));
    TilesMeaning(Targets(full), 0, n);
    assert Targets(full)[i] == TargetOf(full[i]);
  }

  /** Prepared writes stay inside the cache and the source. */
  lemma PreparedFits(plan: WritePlan, l: nat, input: LayerInput, blocks: nat, size: nat)
    requires ValidWritePlan(plan) && l < NUM_LAYERS && Prepared(plan, l, input, blocks, size)
    ensures AllFit(ForLayer(plan.recompute, l), blocks * size, plan.rowPlan.promptTokens)
  {
    assert LayerPlanned(plan, l);
    var full, pieces := ForLayer(plan.full, l), ForLayer(plan.recompute, l);
    forall j | 0 <= j < |pieces|
      ensures InCache(pieces[j], blocks * size, plan.rowPlan.promptTokens)
    {
      assert pieces[j] in pieces;
      PieceFits(full, plan.rowPlan.layers[l].recompute, pieces[j], plan.rowPlan.promptTokens, blocks, size);
    }
  }

  method CheckShapes(full: seq<Span>, pieces: seq<Span>, cache: Cache) returns (r: UpdateResult<()>)
    ensures r.Done? <==> OneBlockSize(full, cache.blockSize) && cache.blocks > 0 && BlocksExist(pieces, cache.blocks)
    ensures r.Failed? ==> r.error in {InvalidCacheShape, InvalidView}
  {
    if full == [] || cache.blocks == 0 || exists i :: 0 <= i < |full| && full[i].blockSize != cache.blockSize {
      return Failed(InvalidCacheShape);
    }
    for k := 0 to |pieces|
      invariant forall i :: 0 <= i < k ==> pieces[i].blockId < cache.blocks
    {
      if pieces[k].blockId >= cache.blocks {
        return Failed(InvalidView);
      }
    }
    r := Done(());
  }

  /** Reads only; succeeds exactly on prepared layers, and returns the copies to make. */
  method PrepareLayer(plan: WritePlan, l: nat, input: LayerInput, cache: Cache) returns (r: UpdateResult<seq<Span>>)
    requires ValidWritePlan(plan) && l < NUM_LAYERS && Shaped(cache)
    ensures r.Done? <==> Prepared(plan, l, input, cache.blocks, cache.blockSize)
    ensures r.Done? ==> r.value == ForLayer(plan.recompute, l)
    ensures r.Done? ==> AllFit(r.value, cache.keys.Length, plan.rowPlan.promptTokens)
    ensures r.Failed? ==> r.error in {SlotMappingRefused, InvalidSourceShape, InvalidCacheShape, InvalidView}
  {
    var mapped := ValidateSlotMapping(plan, l, input.mapping);
    if mapped.Rejected? {
      return Failed(SlotMappingRefused);
    }
    if |input.key| != plan.rowPlan.promptTokens || |input.value| != plan.rowPlan.promptTokens {
      return Failed(InvalidSourceShape);
    }
    var shapes := CheckShapes(ForLayer(plan.full, l), ForLayer(plan.recompute, l), cache);
    if shapes.Failed? {
      return Failed(shapes.error);
    }
    PreparedFits(plan, l, input, cache.blocks, cache.blockSize);
    r := Done(ForLayer(plan.recompute, l));
  }

  // ----- copying

  method CopyRows(dest: array<Row>, slot: nat, rows: seq<Row>)
    requires slot + |rows| <= dest.Length
    modifies dest
    ensures dest[..] == Put(old(dest[..]), slot, rows)
  {
    for k := 0 to |rows|
      invariant forall i :: 0 <= i < dest.Length ==>
        dest[i] == if slot <= i < slot + k then rows[i - slot] else old(dest[i])
    {
      dest[slot + k] := rows[k];
    }
  }

  /** One copy, which the fault may cut short. */
  method TryCopy(dest: array<Row>, q: Span, source: seq<Row>, fault: Fault) returns (ok: bool)
    requires InCache(q, dest.Length, |source|)
    modifies dest
    ensures ok <==> Survives(fault, 1)
    ensures ok ==> dest[..] == Put(old(dest[..]), q.slotStart, RowsOf(q, source))
    ensures !ok ==> exists count: nat ::
      count <= Len(q.target) && dest[..] == Put(old(dest[..]), q.slotStart, RowsOf(q, source)[..count])
  {
    ok := Survives(fault, 1);
    var rows := RowsOf(q, source);
    if ok {
      CopyRows(dest, q.slotStart, rows);
    } else {
      var count := if fault.rows < |rows| then fault.rows else |rows|;
      CopyRows(dest, q.slotStart, rows[..count]);
    }
  }

  ghost predicate CopiedUpTo(c: Cache, before: LayerState, pieces: seq<Span>, input: LayerInput, k: nat)
    reads c.keys, c.values
    requires Writable(before, pieces, input) && k <= |pieces|
  {
    Contents(c)
      == LayerState(Apply(before.keys, pieces[..k], input.key), Apply(before.values, pieces[..k], input.value))
  }

  lemma CopiedAll(before: LayerState, pieces: seq<Span>, input: LayerInput, now: LayerState)
    requires Writable(before, pieces, input)
    requires var all := pieces[..|pieces|];
      now == LayerState(Apply(before.keys, all, input.key), Apply(before.values, all, input.value))
    ensures now == LayerAfter(before, pieces, input)
  {
    TakeAll(pieces);
  }

  /** Key rows then value rows, piece by piece. */
  method CopyPiece(c: Cache, pieces: seq<Span>, input: LayerInput, k: nat, fault: Fault, ghost before: LayerState)
      returns (ok: bool)
    requires Writable(before, pieces, input) && k < |pieces| && c.keys != c.values
    requires CopiedUpTo(c, before, pieces, input, k)
    modifies c.keys, c.values
    ensures ok <==> Survives(fault, 2)
    ensures ok ==> CopiedUpTo(c, before, pieces, input, k + 1)
    ensures !ok ==> PartlyUpdated(before, Contents(c), pieces, input)
  {
    ApplyNext(before.keys, pieces, input.key, k);
    ApplyNext(before.values, pieces, input.value, k);
    ApplyIsPartial(before.keys, pieces, input.key, k);
    ApplyIsPartial(before.values, pieces, input.value, k);
    ghost var keys, values := c.keys[..], c.values[..];
    ok := TryCopy(c.keys, pieces[k], input.key, fault);
    if !ok {
      ghost var count: nat :| count <= Len(pieces[k].target)
        && c.keys[..] == Put(keys, pieces[k].slotStart, RowsOf(pieces[k], input.key)[..count]);
      PutIsPartial(before.keys, keys, pieces, input.key, k, count);
      return;
    }
    ApplyIsPartial(before.keys, pieces, input.key, k + 1);
    ok := TryCopy(c.values, pieces[k], input.value, Remaining(fault, 1));
    if !ok {
      ghost var count: nat :| count <= Len(pieces[k].target)
        && c.values[..] == Put(values, pieces[k].slotStart, RowsOf(pieces[k], input.value)[..count]);
      PutIsPartial(before.values, values, pieces, input.value, k, count);
    }
  }

  /** All copies of one layer. */
  method WriteLayer(c: Cache, pieces: seq<Span>, input: LayerInput, fault: Fault) returns (ok: bool)
    requires c.keys != c.values && Writable(Contents(c), pieces, input)
    modifies c.keys, c.values
    ensures ok <==> Survives(fault, 2 * |pieces|)
    ensures ok ==> Contents(c) == LayerAfter(old(Contents(c)), pieces, input)
    ensures !ok ==> PartlyUpdated(old(Contents(c)), Contents(c), pieces, input)
  {
    ghost var before := Contents(c);
    for k := 0 to |pieces|
      invariant CopiedUpTo(c, before, pieces, input, k)
      invariant Survives(fault, 2 * k)
    {
      ok := CopyPiece(c, pieces, input, k, Remaining(fault, 2 * k), before);
      if !ok {
        return;
      }
    }
    CopiedAll(before, pieces, input, Contents(c));
    ok := true;
  }
}
