/** The persistent record table: atomic, deduplicating batches and exact bucket lookup.
    SQLite is an append-ordered table with a unique checksum column; the digest is any
    function. */
module Sidecar {
  import opened Order
  import opened Ranges
  import opened Models
  import opened RecordIndex
  import opened Codec
  import opened TextCodec
  import opened Preimages

  type Digest = Bytes -> Bytes

  const MAX_NAMESPACE_FIELD_BYTES: nat := 1024
  const MAX_CACHE_KEY_BYTES: nat := 2048
  const MAX_TOKEN_POSITION: nat := 131072
  const MAX_COLLISION_BUCKET_RECORDS: nat := 1024
  const MAX_RECORDS_PER_TRANSACTION: nat := 1024
  const MAX_TOKENS_PER_TRANSACTION: nat := 1048576

  datatype SidecarError =
    | InvalidNamespace
    | InvalidFingerprint
    | InvalidRecord
    | RecordCorrupt
    | ChecksumCollision
    | CollisionBucketLimit

  datatype SidecarResult<+T> = Stored(value: T) | Failure(error: SidecarError)

  // ----- validation

  predicate BoundedText(s: string, maximum: nat) { s != [] && '\0' !in s && |Utf8(s)| <= maximum }

  predicate ValidNamespace(ns: CacheNamespace) {
    && 1 <= ns.schemaVersion <= 2147483647
    && forall i :: 1 <= i < |FIELD_NAMES| ==> BoundedText(FieldValues(ns)[i], MAX_NAMESPACE_FIELD_BYTES)
  }

  predicate ValidFingerprint(f: SegmentFingerprint) { |f.digest| == 32 }

  predicate ValidRecord(r: CacheRecord) {
    && ValidNamespace(r.namespace) && ValidFingerprint(r.fingerprint)
    && BoundedText(r.cacheKey, MAX_CACHE_KEY_BYTES)
    && |r.tokens| <= MAX_TOKENS_PER_RECORD && r.sourceRange.end <= MAX_TOKEN_POSITION
  }

  lemma {:induction false} DecimalShort(n: nat)
    ensures |Decimal(n)| <= n + 1
  {
    if n >= 10 {
      DecimalShort(n / 10);
    }
  }

  lemma ValidIsEncodable(ns: CacheNamespace)
    requires ValidNamespace(ns)
    ensures Encodable(ns)
  {
    DecimalShort(ns.schemaVersion);
    ShortText(Decimal(ns.schemaVersion));
    forall i | 0 <= i < |FieldValues(ns)|
      ensures |Utf8(FieldValues(ns)[i])| < TOKEN_LIMIT
    {
      if i > 0 {
        assert BoundedText(FieldValues(ns)[i], MAX_NAMESPACE_FIELD_BYTES);
      }
    }
  }

  lemma ValidRecordEncodable(r: CacheRecord)
    requires ValidRecord(r)
    ensures EncodableRecord(r)
  {
    ValidIsEncodable(r.namespace);
  }

  // ----- rows

  datatype Row = Row(
    namespaceKey: Bytes,
    namespace: CacheNamespace,
    fingerprint: Bytes,
    cacheKey: string,
    sourceStart: nat,
    sourceEnd: nat,
    tokenCount: nat,
    tokenBlob: Bytes,
    checksum: Bytes)

  function NamespaceKey(hash: Digest, ns: CacheNamespace): Bytes { hash(NamespacePreimage(ns)) }

  function Checksum(hash: Digest, r: CacheRecord): Bytes { hash(RecordPreimage(r)) }

  function RowOf(hash: Digest, r: CacheRecord): Row {
    Row(NamespaceKey(hash, r.namespace), r.namespace, r.fingerprint.digest, r.cacheKey,
        r.sourceRange.start, r.sourceRange.end, |r.tokens|, Blob(r.tokens), Checksum(hash, r))
  }

  /** The row names the caller's namespace and fingerprint, under its own key. */
  predicate RowMatches(hash: Digest, row: Row, ns: CacheNamespace, f: SegmentFingerprint) {
    && ValidNamespace(row.namespace) && row.namespaceKey == NamespaceKey(hash, row.namespace) && row.namespace == ns
    && row.fingerprint == f.digest
  }

  /** The token blob decodes and fits the stored range. */
  predicate RowReads(row: Row) {
    && DecodeTokenIds(row.tokenBlob, row.tokenCount).Some?
    && row.sourceStart <= row.sourceEnd <= MAX_TOKEN_POSITION && row.sourceEnd - row.sourceStart == row.tokenCount
    && BoundedText(row.cacheKey, MAX_CACHE_KEY_BYTES)
  }

  function RowRecord(row: Row): CacheRecord
    requires RowReads(row)
  {
    var tokens := DecodeTokenIds(row.tokenBlob, row.tokenCount).value;
    AcceptedIsBlob(row.tokenBlob, row.tokenCount);
    Record(row.namespace, SegmentFingerprint(row.fingerprint), tokens, Bounds(row.sourceStart, row.sourceEnd),
      row.cacheKey)
  }

  /** Rebuilds a record, refusing a row that disagrees with the caller or with itself. */
  function RecordFromRow(
      hash: Digest, row: Row, ns: CacheNamespace, f: SegmentFingerprint): SidecarResult<CacheRecord>
  {
    if !RowMatches(hash, row, ns, f) || !RowReads(row) then Failure(RecordCorrupt)
    else if row.checksum != Checksum(hash, RowRecord(row)) || !ValidRecord(RowRecord(row)) then Failure(RecordCorrupt)
    else Stored(RowRecord(row))
  }

  lemma StoredRowReads(hash: Digest, r: CacheRecord)
    requires ValidRecord(r)
    ensures RowReads(RowOf(hash, r)) && RowRecord(RowOf(hash, r)) == r
  {
    BlobRoundTrip(r.tokens);
  }

  lemma StoredRowMatches(hash: Digest, r: CacheRecord, ns: CacheNamespace, f: SegmentFingerprint)
    requires ValidRecord(r)
    ensures RowMatches(hash, RowOf(hash, r), ns, f) <==> r.namespace == ns && r.fingerprint == f
  {
  }

  /** A stored row gives back the record it was made from, to the callers it belongs to. */
  lemma RowRoundTrip(hash: Digest, r: CacheRecord, ns: CacheNamespace, f: SegmentFingerprint)
    requires ValidRecord(r)
    ensures RecordFromRow(hash, RowOf(hash, r), ns, f) == if r.namespace == ns && r.fingerprint == f then Stored(r)
      else Failure(RecordCorrupt)
  {
    StoredRowReads(hash, r);
    StoredRowMatches(hash, r, ns, f);
    assert RowOf(hash, r).checksum == Checksum(hash, r);
  }

  // ----- the table's row order

  function RangeKey(start: nat, end: nat): SortKey { [[start], [end]] }

  function RowKey(row: Row): SortKey { [Utf8(row.cacheKey)] + RangeKey(row.sourceStart, row.sourceEnd) }

  predicate RowLe(a: Row, b: Row) { KeyLe(RowKey(a), RowKey(b)) }

  lemma SameCodePoints(a: string, b: string)
    requires CodePoints(a) == CodePoints(b)
    ensures a == b
  {
    forall i | 0 <= i < |a|
      ensures a[i] == b[i]
    {
      assert CodePoints(a)[i] == CodePoints(b)[i];
    }
  }

  lemma KeyLeParts(a: Text, x: SortKey, b: Text, y: SortKey)
    ensures KeyLe([a] + x, [b] + y) <==> if a == b then KeyLe(x, y) else TextLe(a, b)
  {
    assert ([a] + x)[1..] == x && ([b] + y)[1..] == y;
  }

  lemma SameOrder(u: Text, v: Text, c: Text, d: Text, x: SortKey, y: SortKey)
    requires (TextLe(u, v) <==> TextLe(c, d)) && (u == v <==> c == d)
    ensures KeyLe([u] + x, [v] + y) <==> KeyLe([c] + x, [d] + y)
  {
    KeyLeParts(u, x, v, y);
    KeyLeParts(c, x, d, y);
  }

  lemma SameText(a: string, b: string)
    ensures Utf8(a) == Utf8(b) <==> CodePoints(a) == CodePoints(b)
  {
    if Utf8(a) == Utf8(b) {
      Utf8Injective(a, b);
    }
    if CodePoints(a) == CodePoints(b) {
      SameCodePoints(a, b);
    }
  }

  lemma RecordKeyIs(r: CacheRecord)
    ensures RecordKey(r) == [CodePoints(r.cacheKey)] + RangeKey(r.sourceRange.start, r.sourceRange.end)
  {
  }

  lemma RowKeyIs(hash: Digest, r: CacheRecord)
    ensures RowKey(RowOf(hash, r)) == [Utf8(r.cacheKey)] + RangeKey(r.sourceRange.start, r.sourceRange.end)
  {
  }

  /** Bytes or code points in front: the same order. */
  lemma BytesOrCodePoints(a: string, b: string, x: SortKey, y: SortKey)
    ensures KeyLe([Utf8(a)] + x, [Utf8(b)] + y) <==> KeyLe([CodePoints(a)] + x, [CodePoints(b)] + y)
  {
    Utf8KeepsOrder(a, b);
    SameText(a, b);
    SameOrder(Utf8(a), Utf8(b), CodePoints(a), CodePoints(b), x, y);
  }

  /** Ordering rows by the bytes of the key is ordering records by the key's code points. */
  lemma RowOrderIsRecordOrder(hash: Digest, a: CacheRecord, b: CacheRecord)
    ensures RowLe(RowOf(hash, a), RowOf(hash, b)) <==> RecordLe(a, b)
  {
    RowKeyIs(hash, a);
    RowKeyIs(hash, b);
    RecordKeyIs(a);
    RecordKeyIs(b);
    BytesOrCodePoints(a.cacheKey, b.cacheKey, RangeKey(a.sourceRange.start, a.sourceRange.end),
                      RangeKey(b.sourceRange.start, b.sourceRange.end));
  }

  // ----- the table's view of all this

  /** The parts the record table is built from. */
  datatype Coding = Coding(
    valid: CacheRecord -> bool,
    validNamespace: CacheNamespace -> bool,
    encode: CacheRecord -> Row,
    decode: (Row, CacheNamespace, SegmentFingerprint) -> SidecarResult<CacheRecord>,
    checksum: CacheRecord -> Bytes,
    namespaceKey: CacheNamespace -> Bytes,
    rowLe: (Row, Row) -> bool)
  {
    ghost predicate ReadsBack(r: CacheRecord, ns: CacheNamespace, f: SegmentFingerprint) {
      valid(r) ==>
        decode(encode(r), ns, f) == if r.namespace == ns && r.fingerprint == f then Stored(r)
        else Failure(RecordCorrupt)
    }

    ghost predicate Columns(r: CacheRecord) {
      && encode(r).checksum == checksum(r) && encode(r).namespaceKey == namespaceKey(r.namespace)
      && encode(r).fingerprint == r.fingerprint.digest
    }

    ghost predicate KeepsOrder(a: CacheRecord, b: CacheRecord) { rowLe(encode(a), encode(b)) <==> RecordLe(a, b) }

    ghost predicate Lawful() {
      && (forall r: CacheRecord, ns, f :: ReadsBack(r, ns, f))
      && (forall r: CacheRecord :: Columns(r))
      && (forall a: CacheRecord, b: CacheRecord :: KeepsOrder(a, b))
    }
  }

  function SidecarCoding(hash: Digest): Coding {
    Coding(
      (r: CacheRecord) => ValidRecord(r),
      (ns: CacheNamespace) => ValidNamespace(ns),
      (r: CacheRecord) => RowOf(hash, r),
      (row: Row, ns: CacheNamespace, f: SegmentFingerprint) => RecordFromRow(hash, row, ns, f),
      (r: CacheRecord) => Checksum(hash, r),
      (ns: CacheNamespace) => NamespaceKey(hash, ns),
      RowLe)
  }

  lemma CodingReadsBack(hash: Digest, r: CacheRecord, ns: CacheNamespace, f: SegmentFingerprint)
    ensures SidecarCoding(hash).ReadsBack(r, ns, f)
  {
    if ValidRecord(r) {
      RowRoundTrip(hash, r, ns, f);
    }
  }

  lemma CodingColumns(hash: Digest, r: CacheRecord)
    ensures SidecarCoding(hash).Columns(r)
  {
  }

  lemma CodingKeepsOrder(hash: Digest, a: CacheRecord, b: CacheRecord)
    ensures SidecarCoding(hash).KeepsOrder(a, b)
  {
    RowOrderIsRecordOrder(hash, a, b);
  }

  /** The sidecar's encoding reads back, and orders rows as records are ordered. */
  lemma SidecarCodingIsLawful(hash: Digest)
    ensures SidecarCoding(hash).Lawful()
  {
    forall r: CacheRecord, ns, f
      ensures SidecarCoding(hash).ReadsBack(r, ns, f)
    {
      CodingReadsBack(hash, r, ns, f);
    }
    forall r: CacheRecord
      ensures SidecarCoding(hash).Columns(r)
    {
      CodingColumns(hash, r);
    }
    forall a: CacheRecord, b: CacheRecord
      ensures SidecarCoding(hash).KeepsOrder(a, b)
    {
      CodingKeepsOrder(hash, a, b);
    }
  }
}
