/** UTF-8 and decimal text: both can be read back, and UTF-8 keeps the order of strings. */
module TextCodec {
  import opened Order
  import opened Models
  import opened Codec

  // ----- one character

  /** The UTF-8 bytes of a code point: six bits per continuation byte. */
  function CodeBytes(c: int): (r: Bytes)
    requires 0 <= c < 0x11_0000
    ensures 1 <= |r| <= 4
  {
    var high := c / 64;
    var higher := high / 64;
    if c < 0x80 then [c]
    else if c < 0x800 then [0xC0 + high, 0x80 + c % 64]
    else if c < 0x1_0000 then [0xE0 + higher, 0x80 + high % 64, 0x80 + c % 64]
    else [0xF0 + higher / 64, 0x80 + higher % 64, 0x80 + high % 64, 0x80 + c % 64]
  }

  /** How many bytes a first byte announces. */
  function Width(first: int): nat {
    if first < 0x80 then 1 else if first < 0xE0 then 2 else if first < 0xF0 then 3 else 4
  }

  lemma WidthIsLength(c: int)
    requires 0 <= c < 0x11_0000
    ensures |CodeBytes(c)| == Width(CodeBytes(c)[0])
  {
  }

  /** A top digit followed by base-64 digits. */
  function Digits(top: int, low: Text): int {
    if low == [] then top else Digits(top, low[..|low| - 1]) * 64 + (low[|low| - 1] - 0x80)
  }

  function CodeOf(b: Text): int
    requires 1 <= |b| <= 4
  {
    var lead := if |b| == 1 then 0 else if |b| == 2 then 0xC0 else if |b| == 3 then 0xE0 else 0xF0;
    Digits(b[0] - lead, b[1..])
  }

  lemma DigitsNext(top: int, low: Text, d: int)
    ensures Digits(top, low + [d]) == Digits(top, low) * 64 + (d - 0x80)
  {
    assert (low + [d])[..|low|] == low;
  }

  lemma SplitSix(c: int)
    ensures c == (c / 64) * 64 + c % 64
  {
  }

  lemma OneDigit(top: int, x: int)
    ensures Digits(top, [0x80 + x]) == top * 64 + x
  {
    DigitsNext(top, [], 0x80 + x);
    assert [] + [0x80 + x] == [0x80 + x];
  }

  lemma TwoDigits(top: int, x: int, y: int)
    ensures Digits(top, [0x80 + x, 0x80 + y]) == (top * 64 + x) * 64 + y
  {
    OneDigit(top, x);
    DigitsNext(top, [0x80 + x], 0x80 + y);
    assert [0x80 + x] + [0x80 + y] == [0x80 + x, 0x80 + y];
  }

  lemma ThreeDigits(top: int, x: int, y: int, z: int)
    ensures Digits(top, [0x80 + x, 0x80 + y, 0x80 + z]) == ((top * 64 + x) * 64 + y) * 64 + z
  {
    TwoDigits(top, x, y);
    DigitsNext(top, [0x80 + x, 0x80 + y], 0x80 + z);
    assert [0x80 + x, 0x80 + y] + [0x80 + z] == [0x80 + x, 0x80 + y, 0x80 + z];
  }

  lemma CodeRoundTrip(c: int)
    requires 0 <= c < 0x11_0000
    ensures CodeOf(CodeBytes(c)) == c
  {
    var high := c / 64;
    var higher := high / 64;
    var b := CodeBytes(c);
    if |b| == 2 {
      assert b[1..] == [0x80 + c % 64];
      OneDigit(high, c % 64);
    } else if |b| == 3 {
      assert b[1..] == [0x80 + high % 64, 0x80 + c % 64];
      TwoDigits(higher, high % 64, c % 64);
    } else if |b| == 4 {
      assert b[1..] == [0x80 + higher % 64, 0x80 + high % 64, 0x80 + c % 64];
      ThreeDigits(higher / 64, higher % 64, high % 64, c % 64);
    }
  }

  /** No character's bytes are a prefix of another's. */
  lemma CodePrefixFree(a: int, x: Bytes, b: int, y: Bytes)
    requires 0 <= a < 0x11_0000 && 0 <= b < 0x11_0000 && CodeBytes(a) + x == CodeBytes(b) + y
    ensures a == b && x == y
  {
    var p, q := CodeBytes(a), CodeBytes(b);
    assert p[0] == (p + x)[0] && q[0] == (q + y)[0];
    WidthIsLength(a);
    WidthIsLength(b);
    SamePrefix(p, x, q, y);
    CodeRoundTrip(a);
    CodeRoundTrip(b);
  }

  // ----- strings

  lemma CharInRange(c: char)
    ensures 0 <= c as int < 0x11_0000
  {
  }

  function Utf8(s: string): Bytes {
    if s == [] then []
    else
      CharInRange(s[0]);
      CodeBytes(s[0] as int) + Utf8(s[1..])
  }

  lemma {:induction false} Utf8Injective(a: string, b: string)
    requires Utf8(a) == Utf8(b)
    ensures a == b
  {
    if a != [] && b != [] {
      CharInRange(a[0]);
      CharInRange(b[0]);
      CodePrefixFree(a[0] as int, Utf8(a[1..]), b[0] as int, Utf8(b[1..]));
      Utf8Injective(a[1..], b[1..]);
      assert a == [a[0]] + a[1..] && b == [b[0]] + b[1..];
    }
  }

  // ----- the byte order of UTF-8 is the code point order

  /** `p` is decided to come first at some position, whatever follows. */
  ghost predicate Before(p: Text, q: Text) {
    exists k :: 0 <= k < |p| && k < |q| && p[..k] == q[..k] && p[k] < q[k]
  }

  lemma {:induction false} SharedPrefix(p: Text, x: Text, y: Text)
    ensures TextLe(p + x, p + y) <==> TextLe(x, y)
  {
    if p == [] {
      assert p + x == x && p + y == y;
    } else {
      SharedPrefix(p[1..], x, y);
      assert (p + x)[1..] == p[1..] + x && (p + y)[1..] == p[1..] + y;
    }
  }

  lemma BeforeDecides(p: Text, x: Text, q: Text, y: Text)
    requires Before(p, q)
    ensures TextLe(p + x, q + y) && !TextLe(q + y, p + x)
  {
    var k :| 0 <= k < |p| && k < |q| && p[..k] == q[..k] && p[k] < q[k];
    var u, v := p[k..] + x, q[k..] + y;
    assert p + x == p[..k] + u && q + y == p[..k] + v;
    SharedPrefix(p[..k], u, v);
    SharedPrefix(p[..k], v, u);
    assert u[0] == p[k] && v[0] == q[k];
  }

  /** Two byte strings of one length that first differ upwards. */
  lemma DiffersAt(p: Text, q: Text, k: nat)
    requires |p| == |q| && k < |p| && p[..k] == q[..k] && p[k] < q[k]
    ensures Before(p, q)
  {
  }

  lemma SixUp(a: int, b: int)
    requires a <= b
    ensures a / 64 <= b / 64
    ensures a / 64 == b / 64 ==> a % 64 <= b % 64
    ensures a / 64 == b / 64 && a % 64 == b % 64 ==> a == b
  {
    SplitSix(a);
    SplitSix(b);
  }

  lemma FirstBytesInOrder(a: int, b: int)
    requires 0 <= a < b < 0x11_0000
    ensures CodeBytes(a)[0] <= CodeBytes(b)[0]
  {
    SixUp(a, b);
    SixUp(a / 64, b / 64);
    SixUp(a / 64 / 64, b / 64 / 64);
  }

  lemma CodesInOrder(a: int, b: int)
    requires 0 <= a < b < 0x11_0000
    ensures Before(CodeBytes(a), CodeBytes(b))
  {
    var p, q := CodeBytes(a), CodeBytes(b);
    FirstBytesInOrder(a, b);
    if p[0] < q[0] {
      assert p[..0] == q[..0];
    } else {
      WidthIsLength(a);
      WidthIsLength(b);
      SameFirstByte(a, b);
    }
  }

  lemma SameFirstByte(a: int, b: int)
    requires 0 <= a < b < 0x11_0000 && CodeBytes(a)[0] == CodeBytes(b)[0] && |CodeBytes(a)| == |CodeBytes(b)|
    ensures Before(CodeBytes(a), CodeBytes(b))
  {
    var p, q := CodeBytes(a), CodeBytes(b);
    SixUp(a, b);
    SixUp(a / 64, b / 64);
    SixUp(a / 64 / 64, b / 64 / 64);
    if |p| == 2 {
      DiffersAt(p, q, 1);
    } else if |p| == 3 {
      DiffersAt(p, q, if p[1] < q[1] then 1 else 2);
    } else if |p| == 4 {
      DiffersAt(p, q, if p[1] < q[1] then 1 else if p[2] < q[2] then 2 else 3);
    }
  }

  /** Sorting stored UTF-8 keys by bytes is sorting the keys by code point. */
  lemma {:induction false} Utf8KeepsOrder(a: string, b: string)
    ensures TextLe(Utf8(a), Utf8(b)) <==> TextLe(CodePoints(a), CodePoints(b))
  {
    if a != [] && b != [] {
      var m, n := a[0] as int, b[0] as int;
      CharInRange(a[0]);
      CharInRange(b[0]);
      assert CodePoints(a)[1..] == CodePoints(a[1..]) && CodePoints(b)[1..] == CodePoints(b[1..]);
      if m == n {
        SharedPrefix(CodeBytes(m), Utf8(a[1..]), Utf8(b[1..]));
        Utf8KeepsOrder(a[1..], b[1..]);
      } else if m < n {
        CodesInOrder(m, n);
        BeforeDecides(CodeBytes(m), Utf8(a[1..]), CodeBytes(n), Utf8(b[1..]));
      } else {
        CodesInOrder(n, m);
        BeforeDecides(CodeBytes(n), Utf8(b[1..]), CodeBytes(m), Utf8(a[1..]));
      }
    }
  }

  // ----- decimal numbers

  function Digit(d: nat): char
    requires d < 10
  {
    (48 + d) as char
  }

  function Decimal(n: nat): (s: string)
    ensures s != []
  {
    if n < 10 then [Digit(n)] else Decimal(n / 10) + [Digit(n % 10)]
  }

  function DecimalValue(s: string): int {
    if s == [] then 0 else DecimalValue(s[..|s| - 1]) * 10 + (s[|s| - 1] as int - 48)
  }

  lemma {:induction false} DecimalRoundTrip(n: nat)
    ensures DecimalValue(Decimal(n)) == n
  {
    var s := Decimal(n);
    if n < 10 {
      assert s[..0] == [];
    } else {
      DecimalRoundTrip(n / 10);
      assert s[..|s| - 1] == Decimal(n / 10);
    }
  }

  lemma DecimalInjective(m: nat, n: nat)
    requires Decimal(m) == Decimal(n)
    ensures m == n
  {
    DecimalRoundTrip(m);
    DecimalRoundTrip(n);
  }
}
