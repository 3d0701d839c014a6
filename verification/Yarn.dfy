/** Scalar YaRN key rotation and the correction that moves a cached key to a new position.
    Reals stand for floats; the elementary functions are given, with their laws. */
module Yarn {
  /** Cosine, sine, logarithm and power, as the program calls them. */
  datatype Functions = Functions(
    cos: real -> real,
    sin: real -> real,
    log: real -> real,
    pow: (real, real) -> real,
    pi: real)
  {
    ghost predicate AddsAngles(a: real, b: real) {
      && cos(a + b) == cos(a) * cos(b) - sin(a) * sin(b)
      && sin(a + b) == sin(a) * cos(b) + cos(a) * sin(b)
    }

    ghost predicate OnUnitCircle(a: real) { cos(a) * cos(a) + sin(a) * sin(a) == 1.0 }

    ghost predicate Lawful() {
      && (forall a, b :: AddsAngles(a, b))
      && (forall a :: OnUnitCircle(a))
      && cos(0.0) == 1.0 && sin(0.0) == 0.0
      && (forall x, y :: x > 0.0 ==> pow(x, y) > 0.0)
      && (forall x :: x > 1.0 ==> log(x) > 0.0)
      && (forall x :: x > 0.0 ==> (log(x) == 0.0 <==> x == 1.0))
      && pi > 0.0
    }
  }

  datatype Config = Config(
    headDim: nat,
    ropeTheta: real,
    factor: real,
    originalMaxPositions: nat,
    betaFast: real,
    betaSlow: real,
    truncate: bool,
    extrapolationFactor: real,
    attentionFactor: real)
  {
    /** What the configuration constructor accepts. */
    predicate Accepted() {
      && headDim > 0 && headDim % 2 == 0
      && ropeTheta > 0.0 && factor > 0.0 && originalMaxPositions > 0
      && betaFast > 0.0 && betaSlow > 0.0 && extrapolationFactor >= 0.0 && attentionFactor > 0.0
    }
  }

  datatype KeyError = BadLength | NegativePosition | BadScale | DivisionByZero

  datatype KeyResult<+T> = Key(value: T) | KeyFailure(error: KeyError)

  // ----- rotation of pairs

  /** Two components of a key that rotate together. */
  datatype Pair = Pair(first: real, second: real)

  /** Turns a pair by an angle and scales it. */
  type Turner = (Pair, real, real) -> Pair

  function TurnPair(c: real, s: real, p: Pair): Pair {
    Pair(p.first * c - p.second * s, p.second * c + p.first * s)
  }

  function Turn(fs: Functions, p: Pair, angle: real, scale: real): Pair {
    TurnPair(fs.cos(angle) * scale, fs.sin(angle) * scale, p)
  }

  function TurnerOf(fs: Functions): Turner {
    (p, angle, scale) => Turn(fs, p, angle, scale)
  }

  lemma TurnerIs(fs: Functions, p: Pair, a: real, m: real)
    ensures TurnerOf(fs)(p, a, m) == Turn(fs, p, a, m)
  {
  }

  /** Turning a turned pair adds the angles, with the scale applied once. */
  ghost predicate Composes(turn: Turner) {
    forall p, a, b, m :: ComposesAt(turn, p, a, b, m)
  }

  ghost predicate ComposesAt(turn: Turner, p: Pair, a: real, b: real, m: real) {
    turn(turn(p, a, m), b, 1.0) == turn(p, a + b, m)
  }

  ghost predicate Still(turn: Turner) {
    forall p :: turn(p, 0.0, 1.0) == p
  }

  lemma PairIdentity(u: real, w: real, c: real, s: real, d: real, t: real)
    ensures (u * c - w * s) * d - (w * c + u * s) * t == u * (c * d - s * t) - w * (s * d + c * t)
    ensures (w * c + u * s) * d + (u * c - w * s) * t == w * (c * d - s * t) + u * (s * d + c * t)
  {
  }

  lemma ScaleOut(c: real, s: real, d: real, t: real, m: real)
    ensures (c * m) * d - (s * m) * t == (c * d - s * t) * m
    ensures (s * m) * d + (c * m) * t == (s * d + c * t) * m
  {
  }

  lemma TurnsAdd(p: Pair, c: real, s: real, d: real, t: real, m: real)
    ensures TurnPair(d * 1.0, t * 1.0, TurnPair(c * m, s * m, p))
      == TurnPair((c * d - s * t) * m, (s * d + c * t) * m, p)
  {
    PairIdentity(p.first, p.second, c * m, s * m, d, t);
    ScaleOut(c, s, d, t, m);
  }

  lemma TurnIs(fs: Functions, p: Pair, a: real, m: real, c: real, s: real)
    requires c == fs.cos(a) && s == fs.sin(a)
    ensures Turn(fs, p, a, m) == TurnPair(c * m, s * m, p)
  {
  }

  lemma AnglesSumLaw(fs: Functions, a: real, b: real)
    requires fs.Lawful()
    ensures fs.cos(a + b) == fs.cos(a) * fs.cos(b) - fs.sin(a) * fs.sin(b)
    ensures fs.sin(a + b) == fs.sin(a) * fs.cos(b) + fs.cos(a) * fs.sin(b)
  {
    assert fs.AddsAngles(a, b);
  }

  lemma TurnTwice(fs: Functions, p: Pair, a: real, b: real, m: real)
    requires fs.Lawful()
    ensures Turn(fs, Turn(fs, p, a, m), b, 1.0) == Turn(fs, p, a + b, m)
  {
    var c, s, d, t := fs.cos(a), fs.sin(a), fs.cos(b), fs.sin(b);
    TurnIs(fs, p, a, m, c, s);
    TurnIs(fs, TurnPair(c * m, s * m, p), b, 1.0, d, t);
    TurnsAdd(p, c, s, d, t, m);
    AnglesSumLaw(fs, a, b);
    TurnIs(fs, p, a + b, m, c * d - s * t, s * d + c * t);
  }

  lemma TurnerTwice(fs: Functions, p: Pair, a: real, b: real, m: real)
    requires fs.Lawful()
    ensures TurnerOf(fs)(TurnerOf(fs)(p, a, m), b, 1.0) == TurnerOf(fs)(p, a + b, m)
  {
    TurnTwice(fs, p, a, b, m);
    TurnerIs(fs, p, a, m);
    TurnerIs(fs, Turn(fs, p, a, m), b, 1.0);
    TurnerIs(fs, p, a + b, m);
  }

  lemma TurnerComposes(fs: Functions)
    requires fs.Lawful()
    ensures Composes(TurnerOf(fs))
  {
    forall p: Pair, a: real, b: real, m: real
      ensures ComposesAt(TurnerOf(fs), p, a, b, m)
    {
      TurnerTwice(fs, p, a, b, m);
    }
  }

  lemma TurnerStill(fs: Functions)
    requires fs.Lawful()
    ensures Still(TurnerOf(fs))
  {
    forall p: Pair
      ensures TurnerOf(fs)(p, 0.0, 1.0) == p
    {
      assert fs.cos(0.0) * 1.0 == 1.0 && fs.sin(0.0) * 1.0 == 0.0;
    }
  }

  function Norm(p: Pair): real { p.first * p.first + p.second * p.second }

  lemma NormIdentity(u: real, w: real, c: real, s: real)
    requires c * c + s * s == 1.0
    ensures (u * c - w * s) * (u * c - w * s) + (w * c + u * s) * (w * c + u * s) == u * u + w * w
  {
    calc {
      (u * c - w * s) * (u * c - w * s) + (w * c + u * s) * (w * c + u * s);
      (u * u + w * w) * (c * c + s * s);
      u * u + w * w;
    }
  }

  /** A unit rotation keeps a pair's norm. */
  lemma TurnKeepsNorm(fs: Functions, p: Pair, a: real)
    requires fs.Lawful()
    ensures Norm(TurnerOf(fs)(p, a, 1.0)) == Norm(p)
  {
    var c, s := fs.cos(a), fs.sin(a);
    UnitCircle(fs, a);
    NormIdentity(p.first, p.second, c, s);
    TurnerIs(fs, p, a, 1.0);
    assert TurnPair(c * 1.0, s * 1.0, p) == TurnPair(c, s, p);
  }

  lemma UnitCircle(fs: Functions, a: real)
    requires fs.Lawful()
    ensures fs.cos(a) * fs.cos(a) + fs.sin(a) * fs.sin(a) == 1.0
  {
    assert fs.OnUnitCircle(a);
  }

  // ----- rotation of keys

  function TurnedPairs(turn: Turner, ps: seq<Pair>, angles: seq<real>, scale: real): (r: seq<Pair>)
    requires |ps| == |angles|
    ensures |r| == |ps|
  {
    seq(|ps|, i requires 0 <= i < |ps| => turn(ps[i], angles[i], scale))
  }

  /** Pair `i` of a key of length 2h is (v[i], v[i + h]). */
  function Pairs(v: seq<real>): (r: seq<Pair>)
    requires |v| % 2 == 0
    ensures |r| * 2 == |v|
  {
    var h := |v| / 2;
    seq(h, i requires 0 <= i < h => Pair(v[i], v[i + h]))
  }

  function Joined(ps: seq<Pair>): (v: seq<real>)
    ensures |v| == 2 * |ps|
  {
    seq(2 * |ps|, i requires 0 <= i < 2 * |ps| => if i < |ps| then ps[i].first else ps[i - |ps|].second)
  }

  lemma PairsOfJoined(ps: seq<Pair>)
    ensures Pairs(Joined(ps)) == ps
  {
  }

  lemma JoinedPairs(v: seq<real>)
    requires |v| % 2 == 0
    ensures Joined(Pairs(v)) == v
  {
  }

  function Angles(x: real, frequencies: seq<real>): (r: seq<real>)
    ensures |r| == |frequencies|
  {
    seq(|frequencies|, i requires 0 <= i < |frequencies| => x * frequencies[i])
  }

  /** A key turned as a whole. */
  function Turned(turn: Turner, v: seq<real>, angles: seq<real>, scale: real): (r: seq<real>)
    requires |v| == 2 * |angles|
    ensures |r| == |v|
  {
    Joined(TurnedPairs(turn, Pairs(v), angles, scale))
  }

  lemma JoinedAt(ps: seq<Pair>, k: nat)
    requires k < |ps|
    ensures Joined(ps)[k] == ps[k].first && Joined(ps)[k + |ps|] == ps[k].second
  {
  }

  lemma TurnedAt(turn: Turner, v: seq<real>, angles: seq<real>, scale: real, k: nat)
    requires |v| == 2 * |angles| && k < |angles|
    ensures Turned(turn, v, angles, scale)[k] == turn(Pair(v[k], v[k + |angles|]), angles[k], scale).first
    ensures Turned(turn, v, angles, scale)[k + |angles|] == turn(Pair(v[k], v[k + |angles|]), angles[k], scale).second
  {
    var pairs := TurnedPairs(turn, Pairs(v), angles, scale);
    JoinedAt(pairs, k);
    assert Pairs(v)[k] == Pair(v[k], v[k + |angles|]);
  }

  /** Fills the output pair by pair. */
  method FillPairs(turn: Turner, v: seq<real>, angles: seq<real>, scale: real) returns (r: seq<real>)
    requires |v| == 2 * |angles|
    ensures r == Turned(turn, v, angles, scale)
  {
    var h := |angles|;
    var output := new real[|v|](i => 0.0);
    ghost var whole := Turned(turn, v, angles, scale);
    for k := 0 to h
      invariant forall i :: 0 <= i < k || h <= i < h + k ==> output[i] == whole[i]
    {
      var turned := turn(Pair(v[k], v[k + h]), angles[k], scale);
      TurnedAt(turn, v, angles, scale, k);
      output[k] := turned.first;
      output[k + h] := turned.second;
    }
    r := output[..];
  }

  method RotateNeox(
      fs: Functions, v: seq<real>, position: int, frequencies: seq<real>, scale: real) returns (r: KeyResult<seq<real>>)
    ensures r.Key? <==> position >= 0 && scale > 0.0 && |v| == 2 * |frequencies|
    ensures r.Key? ==> r.value == Turned(TurnerOf(fs), v, Angles(position as real, frequencies), scale)
  {
    if position < 0 {
      return KeyFailure(NegativePosition);
    }
    if scale <= 0.0 {
      return KeyFailure(BadScale);
    }
    if |v| != 2 * |frequencies| {
      return KeyFailure(BadLength);
    }
    var output := FillPairs(TurnerOf(fs), v, Angles(position as real, frequencies), scale);
    r := Key(output);
  }

  // ----- laws for whole keys

  function Sum(a: seq<real>, b: seq<real>): (r: seq<real>)
    requires |a| == |b|
    ensures |r| == |a|
  {
    seq(|a|, i requires 0 <= i < |a| => a[i] + b[i])
  }

  lemma PairsTurnedTwice(turn: Turner, ps: seq<Pair>, a: seq<real>, b: seq<real>, scale: real)
    requires Composes(turn) && |ps| == |a| == |b|
    ensures TurnedPairs(turn, TurnedPairs(turn, ps, a, scale), b, 1.0) == TurnedPairs(turn, ps, Sum(a, b), scale)
  {
    forall i | 0 <= i < |ps|
      ensures turn(turn(ps[i], a[i], scale), b[i], 1.0) == turn(ps[i], a[i] + b[i], scale)
    {
      assert ComposesAt(turn, ps[i], a[i], b[i], scale);
    }
  }

  /** Rotations of a key compose by adding their angles. */
  lemma TurnedTwice(turn: Turner, v: seq<real>, a: seq<real>, b: seq<real>, scale: real)
    requires Composes(turn) && |v| == 2 * |a| && |a| == |b|
    ensures Turned(turn, Turned(turn, v, a, scale), b, 1.0) == Turned(turn, v, Sum(a, b), scale)
  {
    PairsTurnedTwice(turn, Pairs(v), a, b, scale);
    PairsOfJoined(TurnedPairs(turn, Pairs(v), a, scale));
  }

  lemma TurnedStill(turn: Turner, v: seq<real>, angles: seq<real>)
    requires Still(turn) && |v| == 2 * |angles| && forall i :: 0 <= i < |angles| ==> angles[i] == 0.0
    ensures Turned(turn, v, angles, 1.0) == v
  {
    forall i | 0 <= i < |angles|
      ensures turn(Pairs(v)[i], angles[i], 1.0) == Pairs(v)[i]
    {
    }
    assert TurnedPairs(turn, Pairs(v), angles, 1.0) == Pairs(v);
    JoinedPairs(v);
  }

  lemma AnglesAdd(x: real, y: real, frequencies: seq<real>)
    ensures Sum(Angles(x, frequencies), Angles(y, frequencies)) == Angles(x + y, frequencies)
  {
    forall i | 0 <= i < |frequencies|
      ensures x * frequencies[i] + y * frequencies[i] == (x + y) * frequencies[i]
    {
    }
  }

  lemma AnglesZero(frequencies: seq<real>)
    ensures forall i :: 0 <= i < |frequencies| ==> Angles(0.0, frequencies)[i] == 0.0
  {
  }

  function Negated(s: seq<real>): (r: seq<real>)
    ensures |r| == |s|
  {
    seq(|s|, i requires 0 <= i < |s| => -s[i])
  }

  /** Rotating by a magnitude with negated frequencies is rotating by the negative shift. */
  lemma NegatedAngles(x: real, frequencies: seq<real>)
    ensures Angles(-x, Negated(frequencies)) == Angles(x, frequencies)
  {
    forall i | 0 <= i < |frequencies|
      ensures Angles(-x, Negated(frequencies))[i] == Angles(x, frequencies)[i]
    {
      NegatedTwice(x, frequencies[i]);
    }
  }

  lemma NegatedTwice(x: real, f: real)
    ensures (-x) * (-f) == x * f
  {
  }

  /** The key of the model at position `x`, given the raw key. */
  function KeyAt(turn: Turner, frequencies: seq<real>, scale: real, raw: seq<real>, x: int): (r: seq<real>)
    requires |raw| == 2 * |frequencies|
    ensures |r| == |raw|
  {
    Turned(turn, raw, Angles(x as real, frequencies), scale)
  }

  /** A cached key rotated by a signed shift, at unit scale. */
  function Shifted(turn: Turner, frequencies: seq<real>, key: seq<real>, delta: int): (r: seq<real>)
    requires |key| == 2 * |frequencies|
    ensures |r| == |key|
  {
    Turned(turn, key, Angles(delta as real, frequencies), 1.0)
  }

  lemma RealSum(a: int, b: int)
    ensures a as real + b as real == (a + b) as real
  {
  }

  /** Correcting the key rotated at the source gives exactly the key rotated at the target,
      whatever the raw key, the positions and the sign of the shift. */
  lemma ShiftIsExact(turn: Turner, frequencies: seq<real>, scale: real, raw: seq<real>, source: int, target: int)
    requires Composes(turn) && |raw| == 2 * |frequencies|
    ensures Shifted(turn, frequencies, KeyAt(turn, frequencies, scale, raw, source), target - source)
      == KeyAt(turn, frequencies, scale, raw, target)
  {
    TurnedTwice(turn, raw, Angles(source as real, frequencies), Angles((target - source) as real, frequencies), scale);
    AnglesAdd(source as real, (target - source) as real, frequencies);
    RealSum(source, target - source);
  }

  /** Corrections compose. */
  lemma ShiftsCompose(turn: Turner, frequencies: seq<real>, key: seq<real>, a: int, b: int)
    requires Composes(turn) && |key| == 2 * |frequencies|
    ensures Shifted(turn, frequencies, Shifted(turn, frequencies, key, a), b) == Shifted(turn, frequencies, key, a + b)
  {
    TurnedTwice(turn, key, Angles(a as real, frequencies), Angles(b as real, frequencies), 1.0);
    AnglesAdd(a as real, b as real, frequencies);
    RealSum(a, b);
  }

  lemma NoShift(turn: Turner, frequencies: seq<real>, key: seq<real>)
    requires Still(turn) && |key| == 2 * |frequencies|
    ensures Shifted(turn, frequencies, key, 0) == key
  {
    AnglesZero(frequencies);
    TurnedStill(turn, key, Angles(0.0, frequencies));
  }

  /** Moving there and back restores the key. */
  lemma ShiftUndone(turn: Turner, frequencies: seq<real>, key: seq<real>, delta: int)
    requires Composes(turn) && Still(turn) && |key| == 2 * |frequencies|
    ensures Shifted(turn, frequencies, Shifted(turn, frequencies, key, delta), -delta) == key
  {
    ShiftsCompose(turn, frequencies, key, delta, -delta);
    assert delta + -delta == 0;
    NoShift(turn, frequencies, key);
  }

  /** For the real rotation: a correction followed by its opposite is the identity. */
  lemma CorrectionUndone(fs: Functions, frequencies: seq<real>, key: seq<real>, delta: int)
    requires fs.Lawful() && |key| == 2 * |frequencies|
    ensures Shifted(TurnerOf(fs), frequencies, Shifted(TurnerOf(fs), frequencies, key, delta), -delta) == key
  {
    TurnerComposes(fs);
    TurnerStill(fs);
    ShiftUndone(TurnerOf(fs), frequencies, key, delta);
  }

  /** A correction keeps every pair's norm. */
  lemma ShiftKeepsNorms(fs: Functions, frequencies: seq<real>, key: seq<real>, delta: int, i: nat)
    requires fs.Lawful() && |key| == 2 * |frequencies| && i < |frequencies|
    ensures Norm(Pairs(Shifted(TurnerOf(fs), frequencies, key, delta))[i]) == Norm(Pairs(key)[i])
  {
    var angles := Angles(delta as real, frequencies);
    PairsOfJoined(TurnedPairs(TurnerOf(fs), Pairs(key), angles, 1.0));
    TurnKeepsNorm(fs, Pairs(key)[i], angles[i]);
  }

  // ----- frequencies

  function Clamp(x: real): real { if x < 0.0 then 0.0 else if x > 1.0 then 1.0 else x }

  function Ramp(index: nat, low: real, high: real): (r: real)
    ensures 0.0 <= r <= 1.0
    ensures index as real <= low && low <= high ==> r == 0.0
    ensures low < high <= index as real ==> r == 1.0
  {
    var top := if low == high then high + 0.001 else high;
    var value := (index as real - low) / (top - low);
    RampSign(index as real - low, top - low);
    Clamp(value)
  }

  lemma RampSign(x: real, y: real)
    requires y != 0.0
    ensures x <= 0.0 && y > 0.0 ==> x / y <= 0.0
    ensures x >= y > 0.0 ==> x / y >= 1.0
  {
    assert (x / y) * y == x;
  }

  function CorrectionDimension(fs: Functions, c: Config, rotations: real): real
    requires fs.Lawful() && c.Accepted() && rotations > 0.0 && c.ropeTheta != 1.0
  {
    var turn := rotations * 2.0 * fs.pi;
    TurnPositive(rotations, fs.pi);
    c.headDim as real * fs.log(c.originalMaxPositions as real / turn) / (2.0 * fs.log(c.ropeTheta))
  }

  lemma TurnPositive(rotations: real, pi: real)
    requires rotations > 0.0 && pi > 0.0
    ensures rotations * 2.0 * pi > 0.0
  {
  }

  function Ceiling(x: real): int { if x.Floor as real == x then x.Floor else x.Floor + 1 }

  function CorrectionRange(fs: Functions, c: Config): (r: (real, real))
    requires fs.Lawful() && c.Accepted() && c.ropeTheta != 1.0
    ensures r.0 >= 0.0 && r.1 <= (c.headDim - 1) as real
  {
    var low := CorrectionDimension(fs, c, c.betaFast);
    var high := CorrectionDimension(fs, c, c.betaSlow);
    var lo := if c.truncate then low.Floor as real else low;
    var hi := if c.truncate then Ceiling(high) as real else high;
    var top := (c.headDim - 1) as real;
    (if lo > 0.0 then lo else 0.0, if hi < top then hi else top)
  }

  /** Plain frequency of pair `i`, before interpolation. */
  function Plain(fs: Functions, c: Config, i: nat): real
    requires fs.Lawful() && c.Accepted()
  {
    1.0 / fs.pow(c.ropeTheta, (2.0 * i as real) / c.headDim as real)
  }

  function Frequency(fs: Functions, c: Config, i: nat): real
    requires fs.Lawful() && c.Accepted() && c.ropeTheta != 1.0
  {
    var range := CorrectionRange(fs, c);
    var mask := (1.0 - Ramp(i, range.0, range.1)) * c.extrapolationFactor;
    var p := fs.pow(c.ropeTheta, (2.0 * i as real) / c.headDim as real);
    ScaledPositive(c.factor, p);
    (1.0 / (c.factor * p)) * (1.0 - mask) + (1.0 / p) * mask
  }

  lemma ScaledPositive(factor: real, p: real)
    requires factor > 0.0 && p > 0.0
    ensures factor * p > 0.0
  {
  }

  function Frequencies(fs: Functions, c: Config): (r: seq<real>)
    requires fs.Lawful() && c.Accepted() && c.ropeTheta != 1.0
    ensures |r| * 2 == c.headDim
  {
    seq(c.headDim / 2, i requires 0 <= i < c.headDim / 2 => Frequency(fs, c, i))
  }

  lemma Reciprocal(factor: real, p: real)
    requires factor > 0.0 && p > 0.0
    ensures factor * p > 0.0 && (1.0 / (factor * p)) * factor == 1.0 / p
  {
    ScaledPositive(factor, p);
    var x, y := 1.0 / (factor * p), 1.0 / p;
    assert x * (factor * p) == 1.0;
    assert y * p == 1.0;
    assert (x * factor) * p == 1.0;
    UniqueInverse(x * factor, y, p);
  }

  lemma UniqueInverse(a: real, b: real, p: real)
    requires p != 0.0 && a * p == 1.0 && b * p == 1.0
    ensures a == b
  {
    calc { a; a * (b * p); b * (a * p); b; }
  }

  /** Frequency of pair `i` with positions interpolated by the factor. */
  function Interpolated(fs: Functions, c: Config, i: nat): real
    requires fs.Lawful() && c.Accepted()
  {
    Plain(fs, c, i) / c.factor
  }

  /** Blending: slow pairs are interpolated, fast pairs are plain to the extent of the
      extrapolation factor. */
  lemma FrequencyEnds(fs: Functions, c: Config, i: nat)
    requires fs.Lawful() && c.Accepted() && c.ropeTheta != 1.0
    ensures var range, e := CorrectionRange(fs, c), c.extrapolationFactor;
      && (i as real <= range.0 <= range.1 ==>
            Frequency(fs, c, i) == Interpolated(fs, c, i) * (1.0 - e) + Plain(fs, c, i) * e)
      && (range.0 < range.1 <= i as real ==> Frequency(fs, c, i) == Interpolated(fs, c, i))
  {
    BlendIs(fs, c, i);
    var range := CorrectionRange(fs, c);
    MaskEnds(Ramp(i, range.0, range.1), c.extrapolationFactor);
  }

  lemma MaskEnds(ramp: real, e: real)
    ensures ramp == 0.0 ==> (1.0 - ramp) * e == e
    ensures ramp == 1.0 ==> (1.0 - ramp) * e == 0.0
  {
  }

  lemma BlendIs(fs: Functions, c: Config, i: nat)
    requires fs.Lawful() && c.Accepted() && c.ropeTheta != 1.0
    ensures var range := CorrectionRange(fs, c);
      var mask := (1.0 - Ramp(i, range.0, range.1)) * c.extrapolationFactor;
      Frequency(fs, c, i) == Interpolated(fs, c, i) * (1.0 - mask) + Plain(fs, c, i) * mask
  {
    var p := fs.pow(c.ropeTheta, (2.0 * i as real) / c.headDim as real);
    Reciprocal(c.factor, p);
    var x := 1.0 / (c.factor * p);
    assert x * c.factor == Plain(fs, c, i);
    QuotientOf(x, c.factor, Plain(fs, c, i));
  }

  lemma QuotientOf(x: real, factor: real, y: real)
    requires factor != 0.0 && x * factor == y
    ensures x == y / factor
  {
  }

  method InverseFrequencies(fs: Functions, c: Config) returns (r: KeyResult<seq<real>>)
    requires fs.Lawful() && c.Accepted()
    ensures r == if c.ropeTheta != 1.0 then Key(Frequencies(fs, c)) else KeyFailure(DivisionByZero)
  {
    if fs.log(c.ropeTheta) == 0.0 {
      return KeyFailure(DivisionByZero);
    }
    var frequencies: seq<real> := [];
    for i := 0 to c.headDim / 2
      invariant |frequencies| == i
      invariant forall k :: 0 <= k < i ==> frequencies[k] == Frequency(fs, c, k)
    {
      frequencies := frequencies + [Frequency(fs, c, i)];
    }
    assert frequencies == Frequencies(fs, c);
    r := Key(frequencies);
  }

  function MagnitudeScale(fs: Functions, factor: real, attentionFactor: real): real {
    (if factor <= 1.0 then 1.0 else 0.1 * fs.log(factor) + 1.0) * attentionFactor
  }

  // ----- keys of one configuration

  ghost predicate Usable(fs: Functions, c: Config) { fs.Lawful() && c.Accepted() }

  /** The scale check inside the rotation can never fail. */
  lemma ScaleIsPositive(fs: Functions, c: Config)
    requires Usable(fs, c)
    ensures MagnitudeScale(fs, c.factor, c.attentionFactor) > 0.0
  {
    ScaledPositive(if c.factor <= 1.0 then 1.0 else 0.1 * fs.log(c.factor) + 1.0, c.attentionFactor);
  }

  /** The key as the model produces it at a position. */
  method ApplyToKey(fs: Functions, key: seq<real>, position: int, c: Config) returns (r: KeyResult<seq<real>>)
    requires Usable(fs, c)
    ensures r.Key? <==> |key| == c.headDim && position >= 0 && c.ropeTheta != 1.0
    ensures |key| == c.headDim && c.ropeTheta == 1.0 ==> r == KeyFailure(DivisionByZero)
    ensures r.Key? ==>
      r.value == KeyAt(TurnerOf(fs), Frequencies(fs, c), MagnitudeScale(fs, c.factor, c.attentionFactor), key, position)
  {
    if |key| != c.headDim {
      return KeyFailure(BadLength);
    }
    var frequencies := InverseFrequencies(fs, c);
    if frequencies.KeyFailure? {
      return KeyFailure(frequencies.error);
    }
    ScaleIsPositive(fs, c);
    r := RotateNeox(fs, key, position, frequencies.value, MagnitudeScale(fs, c.factor, c.attentionFactor));
  }

  /** A signed shift, done with a non-negative rotation only. */
  method RotateSigned(fs: Functions, key: seq<real>, delta: int, frequencies: seq<real>) returns (r: seq<real>)
    requires |key| == 2 * |frequencies|
    ensures r == Shifted(TurnerOf(fs), frequencies, key, delta)
  {
    if delta >= 0 {
      var turned := RotateNeox(fs, key, delta, frequencies, 1.0);
      r := turned.value;
    } else {
      var turned := RotateNeox(fs, key, -delta, Negated(frequencies), 1.0);
      assert (-delta) as real == -(delta as real);
      NegatedAngles(delta as real, frequencies);
      r := turned.value;
    }
  }

  /** Moves a rotated key from source to target; the shift may have either sign, and the
      magnitude scale already in the key is not applied again. */
  method CorrectShiftedKey(
      fs: Functions, key: seq<real>, source: int, target: int, c: Config) returns (r: KeyResult<seq<real>>)
    requires Usable(fs, c)
    ensures r.Key? <==> |key| == c.headDim && source >= 0 && target >= 0 && c.ropeTheta != 1.0
    ensures |key| == c.headDim && source >= 0 && target >= 0 && c.ropeTheta == 1.0 ==> r == KeyFailure(DivisionByZero)
    ensures r.Key? ==> r.value == Shifted(TurnerOf(fs), Frequencies(fs, c), key, target - source)
  {
    if |key| != c.headDim {
      return KeyFailure(BadLength);
    }
    if source < 0 || target < 0 {
      return KeyFailure(NegativePosition);
    }
    var frequencies := InverseFrequencies(fs, c);
    if frequencies.KeyFailure? {
      return KeyFailure(frequencies.error);
    }
    var turned := RotateSigned(fs, key, target - source, frequencies.value);
    r := Key(turned);
  }

  const BASE_ONE := Config(2, 1.0, 1.0, 1, 1.0, 1.0, false, 1.0, 1.0)

  /** The constructor lets a base of 1 through, and then every operation fails on it. */
  method BaseOneFails(fs: Functions, key: seq<real>, source: nat, target: nat)
      returns (frequencies: KeyResult<seq<real>>, rotated: KeyResult<seq<real>>, moved: KeyResult<seq<real>>)
    requires fs.Lawful() && |key| == BASE_ONE.headDim
    ensures BASE_ONE.Accepted() && BASE_ONE.ropeTheta == 1.0
    ensures frequencies == rotated == moved == KeyFailure(DivisionByZero)
  {
    frequencies := InverseFrequencies(fs, BASE_ONE);
    rotated := ApplyToKey(fs, key, target, BASE_ONE);
    moved := CorrectShiftedKey(fs, key, source, target, BASE_ONE);
  }

  /** The two methods together: correcting a cached key equals rotating the raw key anew. */
  method Relocate(
      fs: Functions, raw: seq<real>, source: int, target: int, c: Config) returns (moved: seq<real>, direct: seq<real>)
    requires Usable(fs, c) && c.ropeTheta != 1.0 && |raw| == c.headDim && source >= 0 && target >= 0
    ensures moved == direct
      == KeyAt(TurnerOf(fs), Frequencies(fs, c), MagnitudeScale(fs, c.factor, c.attentionFactor), raw, target)
  {
    var cached := ApplyToKey(fs, raw, source, c);
    var corrected := CorrectShiftedKey(fs, cached.value, source, target, c);
    var anew := ApplyToKey(fs, raw, target, c);
    TurnerComposes(fs);
    ShiftIsExact(TurnerOf(fs), Frequencies(fs, c), MagnitudeScale(fs, c.factor, c.attentionFactor), raw, source,
      target);
    moved, direct := corrected.value, anew.value;
  }
}
