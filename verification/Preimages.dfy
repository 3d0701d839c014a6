/** What the digests are taken of: the segment fingerprint, the namespace key and the record
    checksum.  Each preimage determines every field it was built from. */
module Preimages {
  import opened Order
  import opened Models
  import opened Codec
  import opened TextCodec

  const FINGERPRINT_DOMAIN := "cacheblend-gpt-oss\0segment-fingerprint\0v1\0"
  const TOKEN_DOMAIN := "cacheblend-gpt-oss\0token-sequence\0u64be-v1\0"
  const NAMESPACE_DOMAIN := "cacheblend-gpt-oss\0sidecar-namespace\0v1\0"
  const RECORD_DOMAIN := "cacheblend-gpt-oss\0sidecar-record\0v1\0"

  const FIELD_NAMES: seq<string> :=
    ["schema_version", "model_id", "model_revision", "tokenizer_id", "tokenizer_revision", "model_config_digest",
     "kv_cache_config_digest", "adapter_revision", "vllm_version", "lmcache_version", "torch_version", "cuda_runtime"]

  /** The canonical field values, in the order of the names. */
  function FieldValues(ns: CacheNamespace): (r: seq<string>)
    ensures |r| == |FIELD_NAMES|
  {
    [Decimal(ns.schemaVersion), ns.modelId, ns.modelRevision, ns.tokenizerId, ns.tokenizerRevision,
     ns.modelConfigDigest, ns.kvCacheConfigDigest, ns.adapterRevision, ns.vllmVersion, ns.lmcacheVersion,
     ns.torchVersion, ns.cudaRuntime]
  }

  lemma FieldsDetermineNamespace(a: CacheNamespace, b: CacheNamespace)
    requires FieldValues(a) == FieldValues(b)
    ensures a == b
  {
    var x, y := FieldValues(a), FieldValues(b);
    assert x[0] == y[0];
    DecimalInjective(a.schemaVersion, b.schemaVersion);
    assert x[1] == y[1] && x[2] == y[2] && x[3] == y[3] && x[4] == y[4] && x[5] == y[5] && x[6] == y[6];
    assert x[7] == y[7] && x[8] == y[8] && x[9] == y[9] && x[10] == y[10] && x[11] == y[11];
  }

  /** Every length fits its prefix. */
  ghost predicate Encodable(ns: CacheNamespace) { AllShort(FieldValues(ns)) }

  ghost predicate AllShort(strings: seq<string>) {
    forall i :: 0 <= i < |strings| ==> |Utf8(strings[i])| < TOKEN_LIMIT
  }

  function Texts(strings: seq<string>): (r: seq<Bytes>)
    ensures |r| == |strings|
  {
    seq(|strings|, i requires 0 <= i < |strings| => Utf8(strings[i]))
  }

  lemma TextsInjective(a: seq<string>, b: seq<string>)
    requires |a| == |b| && Texts(a) == Texts(b)
    ensures a == b
  {
    forall i | 0 <= i < |a|
      ensures a[i] == b[i]
    {
      assert Texts(a)[i] == Texts(b)[i];
      Utf8Injective(a[i], b[i]);
    }
  }

  // ----- segment fingerprint

  /** The token encoding inside the fingerprint. */
  function CanonicalTokens(tokens: seq<TokenId>): (r: Bytes)
    ensures |r| == |Utf8(TOKEN_DOMAIN)| + 8 + 8 * |tokens|
  {
    Utf8(TOKEN_DOMAIN) + U64(|tokens|) + TokenBytes(tokens)
  }

  method CanonicalTokenBytes(tokens: seq<TokenId>) returns (output: Bytes)
    ensures output == CanonicalTokens(tokens)
  {
    output := Utf8(TOKEN_DOMAIN);
    output := output + U64(|tokens|);
    output := AppendTokens(output, tokens);
  }

  lemma CanonicalTokensInjective(a: seq<TokenId>, b: seq<TokenId>)
    requires CanonicalTokens(a) == CanonicalTokens(b)
    ensures a == b
  {
    var d := Utf8(TOKEN_DOMAIN);
    SameHeads(d, U64(|a|), TokenBytes(a), d, U64(|b|), TokenBytes(b));
    SamePrefix(U64(|a|), TokenBytes(a), U64(|b|), TokenBytes(b));
    TokenBytesInjective(a, b);
  }

  /** Names and values in turn, each with its own length prefix. */
  function Interleaved(names: seq<string>, values: seq<string>): (r: seq<Bytes>)
    requires |names| == |values|
    ensures |r| == 2 * |names|
  {
    if names == [] then []
    else
      Interleaved(names[..|names| - 1], values[..|values| - 1])
      + [Utf8(names[|names| - 1]), Utf8(values[|values| - 1])]
  }

  lemma PairInjective(p: seq<Bytes>, u: Bytes, v: Bytes, q: seq<Bytes>, w: Bytes)
    requires p + [u, v] == q + [u, w]
    ensures p == q && v == w
  {
    SamePrefix(p, [u, v], q, [u, w]);
    assert [u, v][1] == [u, w][1];
  }

  lemma {:induction false} InterleavedInjective(names: seq<string>, a: seq<string>, b: seq<string>)
    requires |names| == |a| == |b| && Interleaved(names, a) == Interleaved(names, b)
    ensures a == b
  {
    if names != [] {
      var k := |names| - 1;
      PairInjective(Interleaved(names[..k], a[..k]), Utf8(names[k]), Utf8(a[k]), Interleaved(names[..k], b[..k]),
        Utf8(b[k]));
      InterleavedInjective(names[..k], a[..k], b[..k]);
      Utf8Injective(a[k], b[k]);
      assert a == a[..k] + [a[k]] && b == b[..k] + [b[k]];
    }
  }

  lemma {:induction false} InterleavedSized(names: seq<string>, values: seq<string>)
    requires |names| == |values| && AllShort(names) && AllShort(values)
    ensures Sized(Interleaved(names, values))
  {
    if names != [] {
      InterleavedSized(names[..|names| - 1], values[..|values| - 1]);
    }
  }

  lemma SizedAppend(values: seq<Bytes>, last: Bytes)
    requires Sized(values) && |last| < TOKEN_LIMIT
    ensures Sized(values + [last])
  {
  }

  lemma {:induction false} ShortText(s: string)
    ensures |Utf8(s)| <= 4 * |s|
  {
    if s != [] {
      ShortText(s[1..]);
    }
  }

  lemma NamesShort()
    ensures AllShort(FIELD_NAMES)
  {
    forall i | 0 <= i < |FIELD_NAMES|
      ensures |Utf8(FIELD_NAMES[i])| < TOKEN_LIMIT
    {
      ShortText(FIELD_NAMES[i]);
      assert |FIELD_NAMES[i]| < 30;
    }
  }

  function FingerprintChunks(ns: CacheNamespace, tokens: seq<TokenId>): seq<Bytes> {
    Interleaved(FIELD_NAMES, FieldValues(ns)) + [CanonicalTokens(tokens)]
  }

  /** Everything fed to the segment digest. */
  function FingerprintPreimage(ns: CacheNamespace, tokens: seq<TokenId>): Bytes {
    Utf8(FINGERPRINT_DOMAIN) + Chunks(FingerprintChunks(ns, tokens))
  }

  lemma FingerprintSized(ns: CacheNamespace, tokens: seq<TokenId>)
    requires Encodable(ns) && |CanonicalTokens(tokens)| < TOKEN_LIMIT
    ensures Sized(FingerprintChunks(ns, tokens))
  {
    NamesShort();
    InterleavedSized(FIELD_NAMES, FieldValues(ns));
    SizedAppend(Interleaved(FIELD_NAMES, FieldValues(ns)), CanonicalTokens(tokens));
  }

  lemma SameChunks(m: CacheNamespace, a: seq<TokenId>, n: CacheNamespace, b: seq<TokenId>)
    requires FingerprintPreimage(m, a) == FingerprintPreimage(n, b)
    ensures Chunks(FingerprintChunks(m, a)) == Chunks(FingerprintChunks(n, b))
  {
    var domain := Utf8(FINGERPRINT_DOMAIN);
    SamePrefix(domain, Chunks(FingerprintChunks(m, a)), domain, Chunks(FingerprintChunks(n, b)));
  }

  lemma ChunksDetermine(m: CacheNamespace, a: seq<TokenId>, n: CacheNamespace, b: seq<TokenId>)
    requires FingerprintChunks(m, a) == FingerprintChunks(n, b)
    ensures m == n && a == b
  {
    SamePrefix(Interleaved(FIELD_NAMES, FieldValues(m)), [CanonicalTokens(a)],
               Interleaved(FIELD_NAMES, FieldValues(n)), [CanonicalTokens(b)]);
    InterleavedInjective(FIELD_NAMES, FieldValues(m), FieldValues(n));
    FieldsDetermineNamespace(m, n);
    assert [CanonicalTokens(a)][0] == [CanonicalTokens(b)][0];
    CanonicalTokensInjective(a, b);
  }

  /** Equal preimages mean the same namespace and the same tokens. */
  lemma FingerprintPreimageInjective(m: CacheNamespace, a: seq<TokenId>, n: CacheNamespace, b: seq<TokenId>)
    requires Encodable(m) && Encodable(n) && |CanonicalTokens(a)| < TOKEN_LIMIT && |CanonicalTokens(b)| < TOKEN_LIMIT
    requires FingerprintPreimage(m, a) == FingerprintPreimage(n, b)
    ensures m == n && a == b
  {
    SameChunks(m, a, n, b);
    FingerprintSized(m, a);
    FingerprintSized(n, b);
    ChunksInjective(FingerprintChunks(m, a), FingerprintChunks(n, b));
    ChunksDetermine(m, a, n, b);
  }

  // ----- namespace key and record checksum

  function NamespacePreimage(ns: CacheNamespace): Bytes {
    Utf8(NAMESPACE_DOMAIN) + Frames(Texts(FIELD_NAMES), Texts(FieldValues(ns)))
  }

  lemma NamespaceSized(ns: CacheNamespace)
    requires Encodable(ns)
    ensures Sized(Texts(FieldValues(ns)))
  {
  }

  lemma NamespacePreimageInjective(m: CacheNamespace, n: CacheNamespace)
    requires Encodable(m) && Encodable(n) && NamespacePreimage(m) == NamespacePreimage(n)
    ensures m == n
  {
    var d, names, x, y := Utf8(NAMESPACE_DOMAIN), Texts(FIELD_NAMES), Texts(FieldValues(m)), Texts(FieldValues(n));
    SamePrefix(d, Frames(names, x), d, Frames(names, y));
    NamespaceSized(m);
    NamespaceSized(n);
    FramesInjective(names, x, y);
    TextsInjective(FieldValues(m), FieldValues(n));
    FieldsDetermineNamespace(m, n);
  }

  const RECORD_NAMES: seq<string> := FIELD_NAMES
    + ["fingerprint", "cache_key", "source_start", "source_end", "token_ids"]

  function RecordTail(r: CacheRecord): (s: seq<Bytes>)
    ensures |s| == 5
  {
    [r.fingerprint.digest, Utf8(r.cacheKey), U64(r.sourceRange.start), U64(r.sourceRange.end), Blob(r.tokens)]
  }

  function RecordValues(r: CacheRecord): seq<Bytes> { Texts(FieldValues(r.namespace)) + RecordTail(r) }

  function RecordPreimage(r: CacheRecord): Bytes {
    Utf8(RECORD_DOMAIN) + Frames(Texts(RECORD_NAMES), RecordValues(r))
  }

  ghost predicate EncodableRecord(r: CacheRecord) {
    && Encodable(r.namespace)
    && |r.fingerprint.digest| < TOKEN_LIMIT && |Utf8(r.cacheKey)| < TOKEN_LIMIT && |Blob(r.tokens)| < TOKEN_LIMIT
    && r.sourceRange.end < TOKEN_LIMIT
  }

  lemma RecordSized(r: CacheRecord)
    requires EncodableRecord(r)
    ensures Sized(RecordValues(r))
  {
    NamespaceSized(r.namespace);
  }

  lemma TailDeterminesRecord(a: CacheRecord, b: CacheRecord)
    requires EncodableRecord(a) && EncodableRecord(b) && RecordTail(a) == RecordTail(b) && a.namespace == b.namespace
    ensures a == b
  {
    var x, y := RecordTail(a), RecordTail(b);
    assert x[0] == y[0] && x[1] == y[1] && x[2] == y[2] && x[3] == y[3] && x[4] == y[4];
    Utf8Injective(a.cacheKey, b.cacheKey);
    U64Injective(a.sourceRange.start, b.sourceRange.start);
    U64Injective(a.sourceRange.end, b.sourceRange.end);
    BlobInjective(a.tokens, b.tokens);
  }

  /** Equal checksum preimages mean the same record, field by field. */
  lemma RecordPreimageInjective(a: CacheRecord, b: CacheRecord)
    requires EncodableRecord(a) && EncodableRecord(b) && RecordPreimage(a) == RecordPreimage(b)
    ensures a == b
  {
    var d, names, x, y := Utf8(RECORD_DOMAIN), Texts(RECORD_NAMES), RecordValues(a), RecordValues(b);
    SamePrefix(d, Frames(names, x), d, Frames(names, y));
    RecordSized(a);
    RecordSized(b);
    FramesInjective(names, x, y);
    SamePrefix(Texts(FieldValues(a.namespace)), RecordTail(a), Texts(FieldValues(b.namespace)), RecordTail(b));
    TextsInjective(FieldValues(a.namespace), FieldValues(b.namespace));
    FieldsDetermineNamespace(a.namespace, b.namespace);
    TailDeterminesRecord(a, b);
  }

  // ----- feeding a digest

  /** The digest is updated field by field; what it has received is the preimage. */
  method FeedFields(domain: Bytes, names: seq<Bytes>, values: seq<Bytes>) returns (fed: Bytes)
    requires |names| == |values|
    ensures fed == domain + Frames(names, values)
  {
    fed := domain;
    for k := 0 to |names|
      invariant fed + Frames(names[k..], values[k..]) == domain + Frames(names, values)
    {
      FrameNext(fed, names, values, k);
      fed := fed + U32(|names[k]|);
      fed := fed + names[k];
      fed := fed + U64(|values[k]|);
      fed := fed + values[k];
    }
  }

  lemma FrameNext(fed: Bytes, names: seq<Bytes>, values: seq<Bytes>, k: nat)
    requires |names| == |values| && k < |names|
    ensures fed + Frames(names[k..], values[k..])
         == fed + U32(|names[k]|) + names[k] + U64(|values[k]|) + values[k] + Frames(names[k + 1..], values[k + 1..])
  {
    DropNext(names, k);
    DropNext(values, k);
    Regroup(fed, U32(|names[k]|), names[k], U64(|values[k]|), values[k], Frames(names[k + 1..], values[k + 1..]));
  }

  lemma Regroup(a: Bytes, b: Bytes, c: Bytes, d: Bytes, e: Bytes, f: Bytes)
    ensures a + (b + c + (d + e) + f) == a + b + c + d + e + f
  {
  }
}
