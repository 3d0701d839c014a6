/** The in-memory record index that the planner looks digests up in. */
module RecordIndex {
  import opened Order
  import opened Models

  function RecordKey(r: CacheRecord): SortKey {
    [CodePoints(r.cacheKey), [r.sourceRange.start], [r.sourceRange.end]]
  }

  predicate RecordLe(a: CacheRecord, b: CacheRecord) { KeyLe(RecordKey(a), RecordKey(b)) }

  lemma RecordOrder()
    ensures TotalPreorder(RecordLe)
  {
    KeyOrder();
    forall a: CacheRecord, b: CacheRecord
      ensures RecordLe(a, b) || RecordLe(b, a)
    {
    }
    forall a: CacheRecord, b: CacheRecord, c: CacheRecord | RecordLe(a, b) && RecordLe(b, c)
      ensures RecordLe(a, c)
    {
      assert KeyLe(RecordKey(a), RecordKey(b)) && KeyLe(RecordKey(b), RecordKey(c));
    }
  }

  predicate InBucket(ns: CacheNamespace, f: SegmentFingerprint, r: CacheRecord) {
    r.namespace == ns && r.fingerprint == f
  }

  /** The added records of one digest bucket, in order of addition. */
  function Bucket(added: seq<CacheRecord>, ns: CacheNamespace, f: SegmentFingerprint): seq<CacheRecord> {
    Filter(r => InBucket(ns, f, r), added)
  }

  function IndexLookup(added: seq<CacheRecord>): RecordLookup {
    (ns, f) => SortBy(RecordLe, Bucket(added, ns, f))
  }

  class InMemoryRecordIndex {
    var records: map<(CacheNamespace, SegmentFingerprint), seq<CacheRecord>>
    ghost var added: seq<CacheRecord>

    ghost predicate Valid()
      reads this
    {
      forall ns, f :: Bucket(added, ns, f) == if (ns, f) in records then records[(ns, f)] else []
    }

    constructor ()
      ensures Valid() && added == []
    {
      records := map[];
      added := [];
    }

    method Add(record: CacheRecord)
      requires Valid()
      modifies this
      ensures Valid() && added == old(added) + [record]
    {
      var key := (record.namespace, record.fingerprint);
      var bucket := if key in records then records[key] else [];
      records := records[key := bucket + [record]];
      added := added + [record];
      forall ns, f
        ensures Bucket(added, ns, f) == if (ns, f) in records then records[(ns, f)] else []
      {
        FilterAppend(r => InBucket(ns, f, r), old(added), record);
        assert Bucket(old(added), ns, f) == if (ns, f) in old(records) then old(records)[(ns, f)] else [];
      }
    }

    method Lookup(ns: CacheNamespace, f: SegmentFingerprint) returns (found: seq<CacheRecord>)
      requires Valid()
      ensures found == IndexLookup(added)(ns, f)
    {
      var bucket := if (ns, f) in records then records[(ns, f)] else [];
      assert bucket == Bucket(added, ns, f);
      found := SortBy(RecordLe, bucket);
    }
  }

  /** A lookup returns exactly the added records of its bucket. */
  lemma LookupMembers(added: seq<CacheRecord>, ns: CacheNamespace, f: SegmentFingerprint, r: CacheRecord)
    ensures r in IndexLookup(added)(ns, f) <==> r in added && r.namespace == ns && r.fingerprint == f
  {
    SortElements(RecordLe, Bucket(added, ns, f));
    FilterMembers(r => InBucket(ns, f, r), added, r);
  }
}
