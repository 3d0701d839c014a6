/** Byte formats: big-endian integers, token sequences and the token blob, and the framing that
    makes a concatenation of fields or chunks determine its parts. */
module Codec {
  import opened Order
  import opened Models

  // ----- big-endian integers

  function Pow256(width: nat): nat { if width == 0 then 1 else Pow256(width - 1) * 256 }

  function BigEndian(n: nat, width: nat): (r: Bytes)
    ensures |r| == width
  {
    if width == 0 then [] else BigEndian(n / 256, width - 1) + [n % 256]
  }

  function Value(b: Bytes): nat {
    if b == [] then 0 else Value(b[..|b| - 1]) * 256 + b[|b| - 1]
  }

  lemma {:induction false} ValueOfBigEndian(n: nat, width: nat)
    requires n < Pow256(width)
    ensures Value(BigEndian(n, width)) == n
  {
    if width > 0 {
      ValueOfBigEndian(n / 256, width - 1);
      var b := BigEndian(n, width);
      assert b[..|b| - 1] == BigEndian(n / 256, width - 1);
    }
  }

  lemma {:induction false} BigEndianOfValue(b: Bytes)
    ensures BigEndian(Value(b), |b|) == b
    ensures Value(b) < Pow256(|b|)
  {
    if b != [] {
      BigEndianOfValue(b[..|b| - 1]);
      assert b == b[..|b| - 1] + [b[|b| - 1]];
    }
  }

  lemma EightBytes()
    ensures Pow256(8) == TOKEN_LIMIT && Pow256(4) == 0x1_0000_0000
  {
    assert Pow256(2) == 0x1_0000;
    assert Pow256(4) == 0x1_0000_0000;
    assert Pow256(6) == 0x1_0000_0000_0000;
  }

  lemma BigEndianInjective(m: nat, n: nat, width: nat)
    requires m < Pow256(width) && n < Pow256(width) && BigEndian(m, width) == BigEndian(n, width)
    ensures m == n
  {
    ValueOfBigEndian(m, width);
    ValueOfBigEndian(n, width);
  }

  function U64(n: nat): (r: Bytes)
    ensures |r| == 8
  {
    BigEndian(n, 8)
  }

  function U32(n: nat): (r: Bytes)
    ensures |r| == 4
  {
    BigEndian(n, 4)
  }

  lemma U64Injective(m: nat, n: nat)
    requires m < TOKEN_LIMIT && n < TOKEN_LIMIT && U64(m) == U64(n)
    ensures m == n
  {
    EightBytes();
    BigEndianInjective(m, n, 8);
  }

  // ----- token sequences

  function TokenBytes(tokens: seq<TokenId>): (r: Bytes)
    ensures |r| == 8 * |tokens|
  {
    if tokens == [] then [] else TokenBytes(tokens[..|tokens| - 1]) + U64(tokens[|tokens| - 1])
  }

  lemma ValueBelowLimit(b: Bytes)
    requires |b| == 8
    ensures Value(b) < TOKEN_LIMIT
  {
    EightBytes();
    BigEndianOfValue(b);
  }

  function TokensOf(b: Bytes): (r: seq<TokenId>)
    requires |b| % 8 == 0
    ensures 8 * |r| == |b|
  {
    if b == [] then []
    else
      ValueBelowLimit(b[|b| - 8..]);
      TokensOf(b[..|b| - 8]) + [Value(b[|b| - 8..])]
  }

  lemma {:induction false} TokensRoundTrip(tokens: seq<TokenId>)
    ensures TokensOf(TokenBytes(tokens)) == tokens
  {
    if tokens != [] {
      var front, last := tokens[..|tokens| - 1], tokens[|tokens| - 1];
      var b := TokenBytes(tokens);
      TokensRoundTrip(front);
      EightBytes();
      ValueOfBigEndian(last, 8);
      assert b[..|b| - 8] == TokenBytes(front) && b[|b| - 8..] == U64(last);
    }
  }

  lemma TokenBytesNext(tokens: seq<TokenId>, t: TokenId)
    ensures TokenBytes(tokens + [t]) == TokenBytes(tokens) + U64(t)
  {
    assert (tokens + [t])[..|tokens|] == tokens;
  }

  lemma TokensOfNext(front: Bytes, last: Bytes)
    requires |front| % 8 == 0 && |last| == 8
    ensures Value(last) < TOKEN_LIMIT && TokensOf(front + last) == TokensOf(front) + [Value(last)]
  {
    ValueBelowLimit(last);
    var b := front + last;
    assert b[..|b| - 8] == front && b[|b| - 8..] == last;
  }

  lemma U64OfValue(last: Bytes)
    requires |last| == 8 && Value(last) < TOKEN_LIMIT
    ensures U64(Value(last)) == last
  {
    BigEndianOfValue(last);
  }

  lemma {:induction false} BytesRoundTrip(b: Bytes)
    requires |b| % 8 == 0
    ensures TokenBytes(TokensOf(b)) == b
  {
    if b != [] {
      var front, last := b[..|b| - 8], b[|b| - 8..];
      assert b == front + last;
      BytesRoundTrip(front);
      TokensOfNext(front, last);
      U64OfValue(last);
      TokenBytesNext(TokensOf(front), Value(last));
    }
  }

  lemma TokenBytesInjective(a: seq<TokenId>, b: seq<TokenId>)
    requires TokenBytes(a) == TokenBytes(b)
    ensures a == b
  {
    TokensRoundTrip(a);
    TokensRoundTrip(b);
  }

  /** Appends each token's eight bytes. */
  method AppendTokens(prefix: Bytes, tokens: seq<TokenId>) returns (output: Bytes)
    ensures output == prefix + TokenBytes(tokens)
  {
    output := prefix;
    for k := 0 to |tokens|
      invariant output == prefix + TokenBytes(tokens[..k])
    {
      assert tokens[..k + 1][..k] == tokens[..k];
      output := output + U64(tokens[k]);
    }
    TakeAll(tokens);
  }

  // ----- the token blob

  const BLOB_MAGIC: Bytes := [0x43, 0x42, 0x54, 0x31]
  const BLOB_HEADER_BYTES: nat := 12
  const MAX_TOKENS_PER_RECORD: nat := 131072

  function Blob(tokens: seq<TokenId>): (r: Bytes)
    ensures |r| == BLOB_HEADER_BYTES + 8 * |tokens|
  {
    BLOB_MAGIC + U64(|tokens|) + TokenBytes(tokens)
  }

  method EncodeTokenIds(tokens: seq<TokenId>) returns (output: Bytes)
    ensures output == Blob(tokens)
  {
    output := BLOB_MAGIC;
    output := output + U64(|tokens|);
    output := AppendTokens(output, tokens);
  }

  /** What the decoder accepts. */
  predicate AcceptedBlob(b: Bytes, expectedCount: nat) {
    && |b| >= BLOB_HEADER_BYTES && b[..4] == BLOB_MAGIC
    && Value(b[4..12]) == expectedCount && 1 <= expectedCount <= MAX_TOKENS_PER_RECORD
    && |b| == BLOB_HEADER_BYTES + 8 * expectedCount
  }

  function DecodeTokenIds(b: Bytes, expectedCount: nat): Option<seq<TokenId>> {
    if !AcceptedBlob(b, expectedCount) then None else Some(TokensOf(b[12..]))
  }

  lemma BlobParts(tokens: seq<TokenId>)
    ensures Blob(tokens)[..4] == BLOB_MAGIC && Blob(tokens)[4..12] == U64(|tokens|)
      && Blob(tokens)[12..] == TokenBytes(tokens)
  {
    ThreeParts(BLOB_MAGIC, U64(|tokens|), TokenBytes(tokens));
  }

  lemma ThreeParts(a: Bytes, b: Bytes, c: Bytes)
    ensures (a + b + c)[..|a|] == a && (a + b + c)[|a|..|a| + |b|] == b && (a + b + c)[|a| + |b|..] == c
  {
  }

  /** Decoding undoes encoding for every permitted length. */
  lemma BlobRoundTrip(tokens: seq<TokenId>)
    requires 1 <= |tokens| <= MAX_TOKENS_PER_RECORD
    ensures DecodeTokenIds(Blob(tokens), |tokens|) == Some(tokens)
  {
    BlobParts(tokens);
    EightBytes();
    ValueOfBigEndian(|tokens|, 8);
    TokensRoundTrip(tokens);
  }

  lemma CutInThree(b: Bytes)
    requires |b| >= 12
    ensures b[..4] + b[4..12] + b[12..] == b
  {
  }

  /** Every accepted blob is the encoding of what it decodes to, so acceptance is exact. */
  lemma AcceptedIsBlob(b: Bytes, expectedCount: nat)
    requires DecodeTokenIds(b, expectedCount).Some?
    ensures var tokens := DecodeTokenIds(b, expectedCount).value;
      |tokens| == expectedCount && 1 <= expectedCount <= MAX_TOKENS_PER_RECORD && Blob(tokens) == b
  {
    BytesRoundTrip(b[12..]);
    CutInThree(b);
    BigEndianOfValue(b[4..12]);
  }

  /** The decoder accepts exactly the encodings of permitted token tuples. */
  lemma DecoderAcceptsExactly(b: Bytes, count: nat)
    ensures DecodeTokenIds(b, count).Some? <==>
      exists tokens: seq<TokenId> :: |tokens| == count && 1 <= count <= MAX_TOKENS_PER_RECORD && Blob(tokens) == b
  {
    if DecodeTokenIds(b, count).Some? {
      AcceptedIsBlob(b, count);
    }
    forall tokens: seq<TokenId> | |tokens| == count && 1 <= count <= MAX_TOKENS_PER_RECORD && Blob(tokens) == b
      ensures DecodeTokenIds(b, count).Some?
    {
      BlobRoundTrip(tokens);
    }
  }

  lemma BlobInjective(a: seq<TokenId>, b: seq<TokenId>)
    requires Blob(a) == Blob(b)
    ensures a == b
  {
    BlobParts(a);
    BlobParts(b);
    TokenBytesInjective(a, b);
  }

  // ----- length-prefixed frames

  /** Two concatenations with prefixes of equal length agree part by part. */
  lemma SamePrefix<T>(a: seq<T>, x: seq<T>, b: seq<T>, y: seq<T>)
    requires |a| == |b| && a + x == b + y
    ensures a == b && x == y
  {
    assert (a + x)[..|a|] == a && (b + y)[..|b|] == b;
    assert (a + x)[|a|..] == x && (b + y)[|b|..] == y;
  }

  lemma SameHeads<T>(p: seq<T>, a: seq<T>, x: seq<T>, q: seq<T>, b: seq<T>, y: seq<T>)
    requires |p| == |q| && p + a + x == q + b + y
    ensures p == q && a + x == b + y
  {
    assert p + a + x == p + (a + x) && q + b + y == q + (b + y);
    SamePrefix(p, a + x, q, b + y);
  }

  function Prefixed(value: Bytes): Bytes { U64(|value|) + value }

  /** A length prefix makes a value readable in front of anything. */
  lemma PrefixedInjective(a: Bytes, x: Bytes, b: Bytes, y: Bytes)
    requires |a| < TOKEN_LIMIT && |b| < TOKEN_LIMIT && Prefixed(a) + x == Prefixed(b) + y
    ensures a == b && x == y
  {
    SameHeads(U64(|a|), a, x, U64(|b|), b, y);
    U64Injective(|a|, |b|);
    SamePrefix(a, x, b, y);
  }

  function Chunks(values: seq<Bytes>): Bytes {
    if values == [] then [] else Prefixed(values[0]) + Chunks(values[1..])
  }

  ghost predicate Sized(values: seq<Bytes>) {
    forall i :: 0 <= i < |values| ==> |values[i]| < TOKEN_LIMIT
  }

  /** A list of prefixed values determines the list. */
  lemma {:induction false} ChunksInjective(a: seq<Bytes>, b: seq<Bytes>)
    requires Sized(a) && Sized(b) && Chunks(a) == Chunks(b)
    ensures a == b
  {
    if a == [] || b == [] {
      assert |Chunks(a)| == 0 ==> a == [];
      assert |Chunks(b)| == 0 ==> b == [];
    } else {
      PrefixedInjective(a[0], Chunks(a[1..]), b[0], Chunks(b[1..]));
      ChunksInjective(a[1..], b[1..]);
      assert a == [a[0]] + a[1..] && b == [b[0]] + b[1..];
    }
  }

  /** One digest update of the sidecar: 32-bit name length, name, 64-bit value length, value. */
  function Framed(name: Bytes, value: Bytes): Bytes { U32(|name|) + name + Prefixed(value) }

  lemma FramedInjective(name: Bytes, a: Bytes, x: Bytes, b: Bytes, y: Bytes)
    requires |a| < TOKEN_LIMIT && |b| < TOKEN_LIMIT && Framed(name, a) + x == Framed(name, b) + y
    ensures a == b && x == y
  {
    var head := U32(|name|) + name;
    SameHeads(head, Prefixed(a), x, head, Prefixed(b), y);
    PrefixedInjective(a, x, b, y);
  }

  /** The framed fields in order, under fixed names. */
  function Frames(names: seq<Bytes>, values: seq<Bytes>): Bytes
    requires |names| == |values|
  {
    if values == [] then [] else Framed(names[0], values[0]) + Frames(names[1..], values[1..])
  }

  lemma {:induction false} FramesInjective(names: seq<Bytes>, a: seq<Bytes>, b: seq<Bytes>)
    requires |names| == |a| == |b| && Sized(a) && Sized(b) && Frames(names, a) == Frames(names, b)
    ensures a == b
  {
    if a != [] {
      FramedInjective(names[0], a[0], Frames(names[1..], a[1..]), b[0], Frames(names[1..], b[1..]));
      FramesInjective(names[1..], a[1..], b[1..]);
      assert a == [a[0]] + a[1..] && b == [b[0]] + b[1..];
    }
  }
}
