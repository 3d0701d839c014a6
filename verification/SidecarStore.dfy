/** The sidecar as an object: batches go in whole or not at all, lookups see every committed
    record of a bucket exactly once. */
module SidecarStore {
  import opened Order
  import opened Models
  import opened RecordIndex
  import opened Dedup
  import opened Sidecar

  function RowsOf(coding: Coding, records: seq<CacheRecord>): seq<Row> { Map(coding.encode, records) }

  ghost predicate AllRecordsValid(coding: Coding, records: seq<CacheRecord>) {
    forall r :: r in records ==> coding.valid(r)
  }

  /** Among these records a checksum belongs to one record. */
  ghost predicate ChecksumsApart(coding: Coding, records: seq<CacheRecord>) {
    forall a, b :: a in records && b in records && coding.checksum(a) == coding.checksum(b) ==> a == b
  }

  /** A different earlier record has the checksum of `r`. */
  ghost predicate Clash(coding: Coding, earlier: seq<CacheRecord>, r: CacheRecord) {
    exists e :: e in earlier && coding.checksum(e) == coding.checksum(r) && e != r
  }

  ghost predicate BatchClash(coding: Coding, earlier: seq<CacheRecord>, batch: seq<CacheRecord>) {
    exists k :: 0 <= k < |batch| && Clash(coding, earlier + batch[..k], batch[k])
  }

  // ----- limits of one batch

  function TokenTotal(records: seq<CacheRecord>): nat {
    if records == [] then 0 else TokenTotal(records[..|records| - 1]) + |records[|records| - 1].tokens|
  }

  ghost predicate BatchOk(coding: Coding, records: seq<CacheRecord>) {
    && |records| <= MAX_RECORDS_PER_TRANSACTION && TokenTotal(records) <= MAX_TOKENS_PER_TRANSACTION
    && AllRecordsValid(coding, records)
  }

  lemma {:induction false} TokenTotalGrows(records: seq<CacheRecord>, k: nat)
    requires k <= |records|
    ensures TokenTotal(records[..k]) <= TokenTotal(records)
    decreases |records| - k
  {
    if k < |records| {
      TokenTotalGrows(records, k + 1);
      assert records[..k + 1][..k] == records[..k];
    } else {
      TakeAll(records);
    }
  }

  /** The whole batch is checked before the transaction starts. */
  method CheckBatch(coding: Coding, records: seq<CacheRecord>) returns (ok: bool)
    ensures ok <==> BatchOk(coding, records)
  {
    var total := 0;
    for k := 0 to |records|
      invariant k <= MAX_RECORDS_PER_TRANSACTION && total == TokenTotal(records[..k]) <= MAX_TOKENS_PER_TRANSACTION
      invariant forall i :: 0 <= i < k ==> coding.valid(records[i])
    {
      if k >= MAX_RECORDS_PER_TRANSACTION {
        return false;
      }
      assert records[k] in records;
      if !coding.valid(records[k]) {
        return false;
      }
      assert records[..k + 1][..k] == records[..k];
      TokenTotalGrows(records, k + 1);
      total := total + |records[k].tokens|;
      if total > MAX_TOKENS_PER_TRANSACTION {
        return false;
      }
    }
    TakeAll(records);
    ok := true;
  }

  // ----- one insertion

  lemma RowsAt(coding: Coding, records: seq<CacheRecord>, i: nat)
    requires i < |records|
    ensures |RowsOf(coding, records)| == |records| && RowsOf(coding, records)[i] == coding.encode(records[i])
  {
    assert Map(coding.encode, records)[i] == coding.encode(records[i]);
  }

  lemma RowsNext(coding: Coding, records: seq<CacheRecord>, r: CacheRecord)
    ensures RowsOf(coding, records + [r]) == RowsOf(coding, records) + [coding.encode(r)]
  {
    MapAppend(coding.encode, records, [r]);
    MapOne(coding.encode, r);
  }

  /** Insert-or-ignore on the checksum; an ignored row must hold this very record. */
  method InsertRow(
      coding: Coding, rows: seq<Row>, r: CacheRecord, ghost seen: seq<CacheRecord>)
      returns (after: SidecarResult<seq<Row>>)
    requires coding.Lawful()
    requires rows == RowsOf(coding, Unique(seen)) && coding.valid(r) && AllRecordsValid(coding, seen)
      && ChecksumsApart(coding, seen)
    ensures after.Stored? <==> !Clash(coding, seen, r)
    ensures after.Stored? ==> after.value == RowsOf(coding, Unique(seen + [r]))
  {
    var checksum := coding.checksum(r);
    UniqueNext(seen, r);
    if i: nat :| i < |rows| && rows[i].checksum == checksum {
      var existing := coding.decode(rows[i], r.namespace, r.fingerprint);
      FoundRow(coding, seen, r, i);
      if existing.Failure? {
        return Failure(existing.error);
      }
      if existing.value != r {
        return Failure(ChecksumCollision);
      }
      return Stored(rows);
    }
    MissingRow(coding, seen, r);
    RowsNext(coding, Unique(seen), r);
    after := Stored(rows + [coding.encode(r)]);
  }

  /** The row found under a checksum is this record's, or it is a clash. */
  lemma FoundRow(coding: Coding, seen: seq<CacheRecord>, r: CacheRecord, i: nat)
    requires coding.Lawful()
    requires coding.valid(r) && AllRecordsValid(coding, seen) && ChecksumsApart(coding, seen)
    requires i < |RowsOf(coding, Unique(seen))| && RowsOf(coding, Unique(seen))[i].checksum == coding.checksum(r)
    ensures coding.decode(RowsOf(coding, Unique(seen))[i], r.namespace, r.fingerprint) == Stored(r) <==>
      !Clash(coding, seen, r)
    ensures !Clash(coding, seen, r) ==> r in Unique(seen)
  {
    var e := Unique(seen)[i];
    RowsAt(coding, Unique(seen), i);
    UniqueMembers(seen, e);
    assert coding.ReadsBack(e, r.namespace, r.fingerprint) && coding.Columns(e);
    if e == r {
      assert !Clash(coding, seen, r);
    } else {
      assert Clash(coding, seen, r);
    }
  }

  lemma MissingRow(coding: Coding, seen: seq<CacheRecord>, r: CacheRecord)
    requires coding.Lawful()
    requires forall i :: 0 <= i < |RowsOf(coding, Unique(seen))| ==>
      RowsOf(coding, Unique(seen))[i].checksum != coding.checksum(r)
    ensures !Clash(coding, seen, r) && r !in Unique(seen)
  {
    forall e | e in seen
      ensures coding.checksum(e) != coding.checksum(r)
    {
      UniqueMembers(seen, e);
      var i :| 0 <= i < |Unique(seen)| && Unique(seen)[i] == e;
      RowsAt(coding, Unique(seen), i);
      assert coding.Columns(e);
    }
    UniqueMembers(seen, r);
  }

  lemma SeenNext(coding: Coding, seen: seq<CacheRecord>, r: CacheRecord)
    requires AllRecordsValid(coding, seen) && ChecksumsApart(coding, seen) && coding.valid(r) && !Clash(coding, seen, r)
    ensures AllRecordsValid(coding, seen + [r]) && ChecksumsApart(coding, seen + [r])
  {
  }

  // ----- lookup

  predicate KeyMatches(coding: Coding, ns: CacheNamespace, f: SegmentFingerprint, r: CacheRecord) {
    coding.namespaceKey(r.namespace) == coding.namespaceKey(ns) && r.fingerprint == f
  }

  function KeyFilter(coding: Coding, ns: CacheNamespace, f: SegmentFingerprint): CacheRecord -> bool {
    (r: CacheRecord) => KeyMatches(coding, ns, f, r)
  }

  predicate RowSelected(coding: Coding, ns: CacheNamespace, f: SegmentFingerprint, row: Row) {
    row.namespaceKey == coding.namespaceKey(ns) && row.fingerprint == f.digest
  }

  function RowFilter(coding: Coding, ns: CacheNamespace, f: SegmentFingerprint): Row -> bool {
    (row: Row) => RowSelected(coding, ns, f, row)
  }

  /** The records whose rows the query selects, in insertion order. */
  function Selected(
      coding: Coding, records: seq<CacheRecord>, ns: CacheNamespace, f: SegmentFingerprint): seq<CacheRecord>
  {
    Filter(KeyFilter(coding, ns, f), records)
  }

  lemma {:induction false} SelectedRows(
      coding: Coding, records: seq<CacheRecord>, ns: CacheNamespace, f: SegmentFingerprint)
    requires coding.Lawful()
    ensures Filter(RowFilter(coding, ns, f), RowsOf(coding, records))
      == RowsOf(coding, Selected(coding, records, ns, f))
  {
    var picks, keeps := RowFilter(coding, ns, f), KeyFilter(coding, ns, f);
    if records != [] {
      var front, last := records[..|records| - 1], records[|records| - 1];
      SelectedRows(coding, front, ns, f);
      assert records == front + [last];
      RowsNext(coding, front, last);
      FilterAppend(picks, RowsOf(coding, front), coding.encode(last));
      FilterAppend(keeps, front, last);
      RowsNext(coding, Selected(coding, front, ns, f), last);
      SelectsAlike(coding, ns, f, last);
    }
  }

  lemma SelectsAlike(coding: Coding, ns: CacheNamespace, f: SegmentFingerprint, r: CacheRecord)
    requires coding.Lawful()
    ensures RowFilter(coding, ns, f)(coding.encode(r)) == KeyFilter(coding, ns, f)(r)
  {
    assert coding.Columns(r);
  }

  /** No other namespace has come under this one's key. */
  ghost predicate NamespaceAlone(coding: Coding, records: seq<CacheRecord>, ns: CacheNamespace, f: SegmentFingerprint) {
    forall r :: r in records && KeyMatches(coding, ns, f, r) ==> r.namespace == ns
  }

  lemma {:induction false} SelectedIsBucket(
      coding: Coding, records: seq<CacheRecord>, ns: CacheNamespace, f: SegmentFingerprint)
    requires NamespaceAlone(coding, records, ns, f)
    ensures Selected(coding, records, ns, f) == Bucket(records, ns, f)
  {
    if records != [] {
      var front, last := records[..|records| - 1], records[|records| - 1];
      assert records == front + [last];
      SelectedIsBucket(coding, front, ns, f);
      FilterAppend(KeyFilter(coding, ns, f), front, last);
      FilterAppend(r => InBucket(ns, f, r), front, last);
    }
  }

  lemma SortedRows(coding: Coding, records: seq<CacheRecord>)
    requires coding.Lawful()
    ensures SortBy(coding.rowLe, RowsOf(coding, records)) == RowsOf(coding, SortBy<CacheRecord>(RecordLe, records))
  {
    forall a: CacheRecord, b: CacheRecord
      ensures coding.rowLe(coding.encode(a), coding.encode(b)) <==> RecordLe(a, b)
    {
      assert coding.KeepsOrder(a, b);
    }
    SortImage(coding.encode, RecordLe, coding.rowLe, records);
  }

  /** Decodes the selected rows; one row of another namespace refuses the whole bucket. */
  method DecodeRows(
      coding: Coding, rows: seq<Row>, ns: CacheNamespace, f: SegmentFingerprint, ghost records: seq<CacheRecord>)
      returns (r: SidecarResult<seq<CacheRecord>>)
    requires coding.Lawful()
    requires rows == RowsOf(coding, records) && AllRecordsValid(coding, records)
    ensures r.Stored? <==> forall e :: e in records ==> e.namespace == ns && e.fingerprint == f
    ensures r.Stored? ==> r.value == records
  {
    var decoded: seq<CacheRecord> := [];
    for k := 0 to |rows|
      invariant decoded == records[..k]
      invariant forall i :: 0 <= i < k ==> records[i].namespace == ns && records[i].fingerprint == f
    {
      RowsAt(coding, records, k);
      assert records[k] in records;
      assert coding.ReadsBack(records[k], ns, f);
      var one := coding.decode(rows[k], ns, f);
      if one.Failure? {
        return Failure(one.error);
      }
      TakeNext(records, k);
      decoded := decoded + [one.value];
    }
    TakeAll(records);
    r := Stored(decoded);
  }

  /** The first `k` records of a batch are staged on top of the stored ones. */
  ghost predicate Staged(coding: Coding, history: seq<CacheRecord>, records: seq<CacheRecord>, k: nat, staged: seq<Row>)
    requires k <= |records|
  {
    var seen := history + records[..k];
    && staged == RowsOf(coding, Unique(seen)) && AllRecordsValid(coding, seen) && ChecksumsApart(coding, seen)
    && forall j :: 0 <= j < k ==> !Clash(coding, history + records[..j], records[j])
  }

  method StageOne(coding: Coding, ghost history: seq<CacheRecord>, records: seq<CacheRecord>, k: nat, staged: seq<Row>)
      returns (after: SidecarResult<seq<Row>>)
    requires coding.Lawful() && k < |records| && coding.valid(records[k]) && Staged(coding, history, records, k, staged)
    ensures after.Stored? <==> !Clash(coding, history + records[..k], records[k])
    ensures after.Stored? ==> Staged(coding, history, records, k + 1, after.value)
    ensures after.Stored? ==> |staged| <= |after.value| <= |staged| + 1
  {
    ghost var seen := history + records[..k];
    after := InsertRow(coding, staged, records[k], seen);
    if after.Stored? {
      InsertedCount(coding, seen, records[k]);
      SeenNext(coding, seen, records[k]);
      assert seen + [records[k]] == history + records[..k + 1];
    }
  }

  class Store {
    const coding: Coding
    var rows: seq<Row>
    /** Every record of every successful batch, repeats included. */
    ghost var history: seq<CacheRecord>

    ghost predicate Valid()
      reads this
    {
      coding.Lawful() && rows == RowsOf(coding, Unique(history)) && AllRecordsValid(coding, history)
        && ChecksumsApart(coding, history)
    }

    constructor (coding: Coding)
      requires coding.Lawful()
      ensures Valid() && rows == [] && history == [] && this.coding == coding
    {
      this.coding := coding;
      rows, history := [], [];
    }

    /** All of the batch or none of it; the count is the growth of the table. */
    method AddMany(records: seq<CacheRecord>) returns (r: SidecarResult<nat>)
      requires Valid()
      modifies this
      ensures Valid()
      ensures r.Stored? <==> BatchOk(coding, records) && !BatchClash(coding, old(history), records)
      ensures r.Stored? ==> history == old(history) + records && |rows| == |old(rows)| + r.value
      ensures r.Failure? ==> history == old(history) && rows == old(rows)
    {
      var ok := CheckBatch(coding, records);
      if !ok {
        return Failure(InvalidRecord);
      }
      var staged := rows;
      var inserted: nat := 0;
      assert history + records[..0] == history;
      for k := 0 to |records|
        invariant unchanged(this)
        invariant Staged(coding, history, records, k, staged)
        invariant |staged| == |rows| + inserted
      {
        assert records[k] in records;
        var after := StageOne(coding, history, records, k, staged);
        if after.Failure? {
          return Failure(after.error);
        }
        inserted := if |after.value| > |staged| then inserted + 1 else inserted;
        staged := after.value;
      }
      TakeAll(records);
      rows := staged;
      history := history + records;
      r := Stored(inserted);
    }

    /** Exactly the committed records of the bucket, in key order, as the in-memory index
        would list the distinct records. */
    method Lookup(ns: CacheNamespace, f: SegmentFingerprint) returns (r: SidecarResult<seq<CacheRecord>>)
      requires Valid()
      ensures r.Stored? <==>
        && coding.validNamespace(ns) && ValidFingerprint(f)
        && |Selected(coding, Unique(history), ns, f)| <= MAX_COLLISION_BUCKET_RECORDS
        && NamespaceAlone(coding, history, ns, f)
      ensures r.Stored? ==> r.value == IndexLookup(Unique(history))(ns, f)
    {
      if !coding.validNamespace(ns) {
        return Failure(InvalidNamespace);
      }
      if !ValidFingerprint(f) {
        return Failure(InvalidFingerprint);
      }
      var picked := Filter(RowFilter(coding, ns, f), rows);
      ghost var chosen := Selected(coding, Unique(history), ns, f);
      SelectedRows(coding, Unique(history), ns, f);
      if |picked| > MAX_COLLISION_BUCKET_RECORDS {
        return Failure(CollisionBucketLimit);
      }
      var sorted := SortBy(coding.rowLe, picked);
      SortedRows(coding, chosen);
      ChosenValid(coding, history, ns, f);
      r := DecodeRows(coding, sorted, ns, f, SortBy<CacheRecord>(RecordLe, chosen));
      LookupExact(coding, history, ns, f);
    }
  }

  lemma InsertedCount(coding: Coding, seen: seq<CacheRecord>, r: CacheRecord)
    ensures |RowsOf(coding, Unique(seen + [r]))| - |RowsOf(coding, Unique(seen))| == if r in Unique(seen) then 0 else 1
  {
    UniqueNext(seen, r);
  }

  lemma ChosenValid(coding: Coding, history: seq<CacheRecord>, ns: CacheNamespace, f: SegmentFingerprint)
    requires AllRecordsValid(coding, history)
    ensures AllRecordsValid(coding, SortBy<CacheRecord>(RecordLe, Selected(coding, Unique(history), ns, f)))
  {
    var chosen := Selected(coding, Unique(history), ns, f);
    SortElements(RecordLe, chosen);
    forall e | e in SortBy<CacheRecord>(RecordLe, chosen)
      ensures coding.valid(e)
    {
      FilterMembers(KeyFilter(coding, ns, f), Unique(history), e);
      UniqueMembers(history, e);
    }
  }

  lemma ChosenMembers(
      coding: Coding, history: seq<CacheRecord>, ns: CacheNamespace, f: SegmentFingerprint, e: CacheRecord)
    ensures e in SortBy<CacheRecord>(RecordLe, Selected(coding, Unique(history), ns, f)) <==>
      e in history && KeyMatches(coding, ns, f, e)
  {
    var chosen := Selected(coding, Unique(history), ns, f);
    SortElements(RecordLe, chosen);
    FilterMembers(KeyFilter(coding, ns, f), Unique(history), e);
    UniqueMembers(history, e);
  }

  /** The bucket decodes exactly when it holds one namespace, and is then the index's. */
  lemma LookupExact(coding: Coding, history: seq<CacheRecord>, ns: CacheNamespace, f: SegmentFingerprint)
    ensures var sorted := SortBy<CacheRecord>(RecordLe, Selected(coding, Unique(history), ns, f));
      && ((forall e :: e in sorted ==> e.namespace == ns && e.fingerprint == f) <==>
        NamespaceAlone(coding, history, ns, f))
      && (NamespaceAlone(coding, history, ns, f) ==> sorted == IndexLookup(Unique(history))(ns, f))
  {
    forall e: CacheRecord
      ensures e in SortBy<CacheRecord>(RecordLe, Selected(coding, Unique(history), ns, f)) <==>
        e in history && KeyMatches(coding, ns, f, e)
    {
      ChosenMembers(coding, history, ns, f, e);
    }
    if NamespaceAlone(coding, history, ns, f) {
      AloneUnique(coding, history, ns, f);
      SelectedIsBucket(coding, Unique(history), ns, f);
    }
  }

  lemma AloneUnique(coding: Coding, history: seq<CacheRecord>, ns: CacheNamespace, f: SegmentFingerprint)
    requires NamespaceAlone(coding, history, ns, f)
    ensures NamespaceAlone(coding, Unique(history), ns, f)
  {
    forall r | r in Unique(history) && KeyMatches(coding, ns, f, r)
      ensures r.namespace == ns
    {
      UniqueMembers(history, r);
    }
  }

  // ----- agreement with the in-memory index

  /** What the sidecar returns is what the in-memory index returns for everything ever added,
      with repeats removed. */
  lemma AgreesWithMemory(history: seq<CacheRecord>, ns: CacheNamespace, f: SegmentFingerprint)
    ensures IndexLookup(Unique(history))(ns, f) == Unique(IndexLookup(history)(ns, f))
    ensures Distinct(IndexLookup(Unique(history))(ns, f))
  {
    UniqueFilter(r => InBucket(ns, f, r), history);
    RecordOrder();
    UniqueSort(RecordLe, Bucket(history, ns, f));
    UniqueDistinct(IndexLookup(history)(ns, f));
  }
}
