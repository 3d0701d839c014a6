/** What the digest has to do with refusals: a valid batch is refused, or a bucket mixed, exactly
    when two different preimages that are in play have the same digest. */
module SidecarDigests {
  import opened Models
  import opened Preimages
  import opened Sidecar
  import opened SidecarStore

  ghost predicate Collide(hash: Digest, x: Bytes, y: Bytes) { x != y && hash(x) == hash(y) }

  /** Different valid records share a checksum only through a digest collision. */
  lemma SharedChecksumIff(hash: Digest, a: CacheRecord, b: CacheRecord)
    requires ValidRecord(a) && ValidRecord(b)
    ensures a != b && Checksum(hash, a) == Checksum(hash, b) <==> Collide(hash, RecordPreimage(a), RecordPreimage(b))
  {
    if RecordPreimage(a) == RecordPreimage(b) {
      ValidRecordEncodable(a);
      ValidRecordEncodable(b);
      RecordPreimageInjective(a, b);
    }
  }

  lemma SharedKeyIff(hash: Digest, a: CacheNamespace, b: CacheNamespace)
    requires ValidNamespace(a) && ValidNamespace(b)
    ensures a != b && NamespaceKey(hash, a) == NamespaceKey(hash, b)
       <==> Collide(hash, NamespacePreimage(a), NamespacePreimage(b))
  {
    if NamespacePreimage(a) == NamespacePreimage(b) {
      ValidIsEncodable(a);
      ValidIsEncodable(b);
      NamespacePreimageInjective(a, b);
    }
  }

  /** The records whose preimage collides with that of `r`. */
  function CollidersOf(hash: Digest, r: CacheRecord): CacheRecord -> bool {
    (e: CacheRecord) => RecordPreimage(e) != RecordPreimage(r) && hash(RecordPreimage(e)) == hash(RecordPreimage(r))
  }

  ghost predicate AnyOf(records: seq<CacheRecord>, which: CacheRecord -> bool) {
    exists e :: e in records && which(e)
  }

  /** For these two records, sharing a checksum is what `collides` says. */
  ghost predicate SharingIs(coding: Coding, collides: CacheRecord -> bool, e: CacheRecord, r: CacheRecord) {
    e != r && coding.checksum(e) == coding.checksum(r) <==> collides(e)
  }

  lemma CodingShares(hash: Digest, e: CacheRecord, r: CacheRecord)
    requires ValidRecord(e) && ValidRecord(r)
    ensures SharingIs(SidecarCoding(hash), CollidersOf(hash, r), e, r)
  {
    SharedChecksumIff(hash, e, r);
  }

  lemma ClashFrom(coding: Coding, collides: CacheRecord -> bool, earlier: seq<CacheRecord>, r: CacheRecord)
    requires forall e :: e in earlier ==> SharingIs(coding, collides, e, r)
    ensures Clash(coding, earlier, r) <==> AnyOf(earlier, collides)
  {
    if Clash(coding, earlier, r) {
      var e :| e in earlier && coding.checksum(e) == coding.checksum(r) && e != r;
      assert SharingIs(coding, collides, e, r);
    }
    if e :| e in earlier && collides(e) {
      assert SharingIs(coding, collides, e, r);
    }
  }

  lemma CodingValidates(hash: Digest, r: CacheRecord)
    ensures SidecarCoding(hash).valid(r) <==> ValidRecord(r)
  {
  }

  lemma ClashIff(hash: Digest, earlier: seq<CacheRecord>, r: CacheRecord)
    requires AllRecordsValid(SidecarCoding(hash), earlier) && ValidRecord(r)
    ensures Clash(SidecarCoding(hash), earlier, r) <==> AnyOf(earlier, CollidersOf(hash, r))
  {
    forall e | e in earlier
      ensures SharingIs(SidecarCoding(hash), CollidersOf(hash, r), e, r)
    {
      CodingValidates(hash, e);
      CodingShares(hash, e, r);
    }
    ClashFrom(SidecarCoding(hash), CollidersOf(hash, r), earlier, r);
  }

  /** A valid batch is refused for a clash exactly when the preimage of one of its records
      collides with that of a record before it. */
  lemma BatchClashIff(hash: Digest, earlier: seq<CacheRecord>, batch: seq<CacheRecord>)
    requires AllRecordsValid(SidecarCoding(hash), earlier) && AllRecordsValid(SidecarCoding(hash), batch)
    ensures BatchClash(SidecarCoding(hash), earlier, batch)
       <==> exists k :: 0 <= k < |batch| && AnyOf(earlier + batch[..k], CollidersOf(hash, batch[k]))
  {
    forall k | 0 <= k < |batch|
      ensures Clash(SidecarCoding(hash), earlier + batch[..k], batch[k])
         <==> AnyOf(earlier + batch[..k], CollidersOf(hash, batch[k]))
    {
      assert batch[k] in batch && SidecarCoding(hash).valid(batch[k]);
      ClashIff(hash, earlier + batch[..k], batch[k]);
    }
  }

  /** The records under fingerprint `f` whose namespace preimage collides with that of `ns`. */
  function MixersOf(hash: Digest, ns: CacheNamespace, f: SegmentFingerprint): CacheRecord -> bool {
    (r: CacheRecord) =>
      && r.fingerprint == f && NamespacePreimage(r.namespace) != NamespacePreimage(ns)
      && hash(NamespacePreimage(r.namespace)) == hash(NamespacePreimage(ns))
  }

  /** For this record, coming under another namespace's key is what `mixes` says. */
  ghost predicate MixingIs(
      coding: Coding, mixes: CacheRecord -> bool, ns: CacheNamespace, f: SegmentFingerprint, r: CacheRecord)
  {
    KeyMatches(coding, ns, f, r) && r.namespace != ns <==> mixes(r)
  }

  lemma CodingMixes(hash: Digest, ns: CacheNamespace, f: SegmentFingerprint, r: CacheRecord)
    requires ValidRecord(r) && ValidNamespace(ns)
    ensures MixingIs(SidecarCoding(hash), MixersOf(hash, ns, f), ns, f, r)
  {
    SharedKeyIff(hash, r.namespace, ns);
  }

  lemma AloneFrom(
      coding: Coding, mixes: CacheRecord -> bool, history: seq<CacheRecord>, ns: CacheNamespace, f: SegmentFingerprint)
    requires forall r :: r in history ==> MixingIs(coding, mixes, ns, f, r)
    ensures NamespaceAlone(coding, history, ns, f) <==> !AnyOf(history, mixes)
  {
    if r :| r in history && KeyMatches(coding, ns, f, r) && r.namespace != ns {
      assert MixingIs(coding, mixes, ns, f, r);
    }
    if r :| r in history && mixes(r) {
      assert MixingIs(coding, mixes, ns, f, r);
    }
  }

  /** A bucket is mixed exactly when the caller's namespace preimage collides with that of a
      stored record under the same fingerprint. */
  lemma NamespaceAloneIff(hash: Digest, history: seq<CacheRecord>, ns: CacheNamespace, f: SegmentFingerprint)
    requires AllRecordsValid(SidecarCoding(hash), history) && ValidNamespace(ns)
    ensures NamespaceAlone(SidecarCoding(hash), history, ns, f) <==> !AnyOf(history, MixersOf(hash, ns, f))
  {
    forall r | r in history
      ensures MixingIs(SidecarCoding(hash), MixersOf(hash, ns, f), ns, f, r)
    {
      CodingValidates(hash, r);
      CodingMixes(hash, ns, f, r);
    }
    AloneFrom(SidecarCoding(hash), MixersOf(hash, ns, f), history, ns, f);
  }
}
