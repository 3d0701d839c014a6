/** The matcher's exact-token candidate index: one dictionary by hash, one by first token. */
module ExactMatcher {
  import opened Order
  import opened Ranges
  import opened Models
  import opened Segmentation

  type Hash = Bytes
  datatype Entry = Entry(chunk: seq<int>, start: nat)
  datatype Index = Index(byFirst: map<int, map<Hash, Entry>>, byHash: map<Hash, Entry>)
  datatype Addition = Addition(hash: Hash, entry: Entry)

  datatype MatcherError = InvalidChunkData | CountMismatch | CapacityExceeded | IdentityConflict | InvalidEvictionHashes
  datatype Outcome = Done | Failed(error: MatcherError)

  const EXACT_INDEX_LIMIT: nat := 0x10_0000

  const EMPTY_INDEX := Index(map[], map[])

  // ----- what it means for the two dictionaries to agree

  /** A hash is in the bucket of a first token exactly when the hash dictionary says so. */
  ghost predicate Agree(x: Index) {
    && (forall h :: h in x.byHash ==>
          x.byHash[h].chunk != [] && InBucket(x, x.byHash[h].chunk[0], h, x.byHash[h]))
    && (forall f, h :: f in x.byFirst && h in x.byFirst[f] ==>
          h in x.byHash && x.byHash[h] == x.byFirst[f][h] && x.byHash[h].chunk != [] && x.byHash[h].chunk[0] == f)
    && (forall f :: f in x.byFirst ==> x.byFirst[f] != map[])
  }

  predicate InBucket(x: Index, f: int, h: Hash, e: Entry) {
    f in x.byFirst && h in x.byFirst[f] && x.byFirst[f][h] == e
  }

  // ----- adding chunks

  function Additions(tokens: seq<int>, hashes: seq<Hash>, chunkSize: Size): (adds: seq<Addition>)
    requires |hashes| * chunkSize <= |tokens|
    ensures |adds| == |hashes|
  {
    if hashes == [] then []
    else
      var k := |hashes| - 1;
      assert k * chunkSize + chunkSize == |hashes| * chunkSize;
      Additions(tokens, hashes[..k], chunkSize)
      + [Addition(hashes[k], Entry(tokens[k * chunkSize..k * chunkSize + chunkSize], k * chunkSize))]
  }

  function Register(x: Index, a: Addition): Index
    requires a.entry.chunk != []
  {
    var f := a.entry.chunk[0];
    var bucket := if f in x.byFirst then x.byFirst[f] else map[];
    Index(x.byFirst[f := bucket[a.hash := a.entry]], x.byHash[a.hash := a.entry])
  }

  ghost predicate NonEmptyChunks(adds: seq<Addition>) { forall i :: 0 <= i < |adds| ==> adds[i].entry.chunk != [] }

  function RegisterAll(x: Index, adds: seq<Addition>): Index
    requires NonEmptyChunks(adds)
  {
    if adds == [] then x else Register(RegisterAll(x, adds[..|adds| - 1]), adds[|adds| - 1])
  }

  /** A stored hash may only come back with its own chunk and position. */
  predicate Conflicts(x: Index, adds: seq<Addition>) {
    exists i :: 0 <= i < |adds| && adds[i].hash in x.byHash && x.byHash[adds[i].hash] != adds[i].entry
  }

  function NewHashes(x: Index, adds: seq<Addition>): set<Hash> {
    set i | 0 <= i < |adds| && adds[i].hash !in x.byHash :: adds[i].hash
  }

  /** Additions of one call that share a hash also share their first token. */
  ghost predicate SharedHashesShareFirst(adds: seq<Addition>)
    requires NonEmptyChunks(adds)
  {
    forall i, j :: 0 <= i < j < |adds| && adds[i].hash == adds[j].hash ==>
      adds[i].entry.chunk[0] == adds[j].entry.chunk[0]
  }

  lemma RegisterAgrees(x: Index, a: Addition)
    requires Agree(x) && a.entry.chunk != []
    requires a.hash in x.byHash ==> x.byHash[a.hash].chunk[0] == a.entry.chunk[0]
    ensures Agree(Register(x, a))
  {
    var y := Register(x, a);
    forall h | h in y.byHash
      ensures y.byHash[h].chunk != [] && InBucket(y, y.byHash[h].chunk[0], h, y.byHash[h])
    {
      if h != a.hash {
        assert InBucket(x, x.byHash[h].chunk[0], h, x.byHash[h]);
      }
    }
    assert a.hash in y.byFirst[a.entry.chunk[0]];
  }

  ghost predicate Unmentioned(adds: seq<Addition>, h: Hash, from: nat) {
    forall k :: from <= k < |adds| ==> adds[k].hash != h
  }

  ghost predicate LastFor(adds: seq<Addition>, h: Hash, e: Entry, i: nat) {
    i < |adds| && adds[i] == Addition(h, e) && Unmentioned(adds, h, i + 1)
  }

  /** The last addition that mentions `h` gives it the entry `e`. */
  ghost predicate LastlyAdded(adds: seq<Addition>, h: Hash, e: Entry) {
    exists i :: LastFor(adds, h, e, i)
  }

  lemma OtherAddition(front: seq<Addition>, last: Addition, h: Hash, e: Entry)
    requires last.hash != h
    ensures LastlyAdded(front, h, e) ==> LastlyAdded(front + [last], h, e)
    ensures Unmentioned(front, h, 0) ==> Unmentioned(front + [last], h, 0)
  {
    if i :| LastFor(front, h, e, i) {
      assert LastFor(front + [last], h, e, i);
    }
  }

  /** After adding, a hash maps to the entry last added for it, or else to the one it had. */
  lemma {:induction false} RegisterAllHas(x: Index, adds: seq<Addition>, h: Hash)
    requires NonEmptyChunks(adds) && h in RegisterAll(x, adds).byHash
    ensures var e := RegisterAll(x, adds).byHash[h];
      LastlyAdded(adds, h, e) || (h in x.byHash && x.byHash[h] == e && Unmentioned(adds, h, 0))
  {
    if adds != [] {
      var front, last := adds[..|adds| - 1], adds[|adds| - 1];
      assert adds == front + [last];
      if last.hash == h {
        assert LastFor(adds, h, last.entry, |front|);
      } else {
        RegisterAllHas(x, front, h);
        OtherAddition(front, last, h, RegisterAll(x, front).byHash[h]);
      }
    }
  }

  lemma {:induction false} RegisterAllAgrees(x: Index, adds: seq<Addition>)
    requires Agree(x) && NonEmptyChunks(adds) && !Conflicts(x, adds) && SharedHashesShareFirst(adds)
    ensures Agree(RegisterAll(x, adds))
  {
    if adds != [] {
      var front, last := adds[..|adds| - 1], adds[|adds| - 1];
      assert !Conflicts(x, front) by {
        forall i | 0 <= i < |front| && front[i].hash in x.byHash
          ensures x.byHash[front[i].hash] == front[i].entry
        {
          assert adds[i] == front[i];
        }
      }
      RegisterAllAgrees(x, front);
      var y := RegisterAll(x, front);
      if last.hash in y.byHash {
        RegisterAllHas(x, front, last.hash);
        var e := y.byHash[last.hash];
        if i: nat :| LastFor(front, last.hash, e, i) {
          assert adds[i] == front[i];
        }
      }
      RegisterAgrees(y, last);
    }
  }

  /** Adding only ever grows buckets. */
  lemma {:induction false} RegisterAllBucket(x: Index, adds: seq<Addition>, i: nat)
    requires NonEmptyChunks(adds) && i < |adds|
    ensures var y := RegisterAll(x, adds);
      adds[i].entry.chunk[0] in y.byFirst && adds[i].hash in y.byFirst[adds[i].entry.chunk[0]]
  {
    if i < |adds| - 1 {
      RegisterAllBucket(x, adds[..|adds| - 1], i);
    }
  }

  /** A successful add keeps the dictionaries in agreement exactly when the additions that share
      a hash share their first token. */
  lemma AddKeepsAgreementIff(x: Index, adds: seq<Addition>)
    requires Agree(x) && NonEmptyChunks(adds) && !Conflicts(x, adds)
    ensures Agree(RegisterAll(x, adds)) <==> SharedHashesShareFirst(adds)
  {
    if SharedHashesShareFirst(adds) {
      RegisterAllAgrees(x, adds);
    } else {
      var i, j :| 0 <= i < j < |adds| && adds[i].hash == adds[j].hash
        && adds[i].entry.chunk[0] != adds[j].entry.chunk[0];
      RegisterAllBucket(x, adds, i);
      RegisterAllBucket(x, adds, j);
      if Agree(RegisterAll(x, adds)) {
        OneBucket(RegisterAll(x, adds), adds[i].hash, adds[i].entry.chunk[0], adds[j].entry.chunk[0]);
      }
    }
  }

  lemma OneBucket(x: Index, h: Hash, f: int, g: int)
    requires Agree(x) && f in x.byFirst && h in x.byFirst[f] && g in x.byFirst && h in x.byFirst[g]
    ensures f == g
  {
    assert x.byHash[h].chunk[0] == f;
  }

  /** The agreement really can be lost: one hash, two chunks with different first tokens. */
  lemma AddCanLoseAgreement()
    ensures var adds := Additions([1, 2], [[7], [7]], 1);
      && NonEmptyChunks(adds) && !Conflicts(EMPTY_INDEX, adds) && !Agree(RegisterAll(EMPTY_INDEX, adds))
  {
    var hashes: seq<Hash> := [[7], [7]];
    var adds := Additions([1, 2], hashes, 1);
    assert hashes[..1] == [[7]] && hashes[..1][..0] == [];
    assert Additions([1, 2], hashes[..1], 1) == [Addition([7], Entry([1, 2][0..1], 0))] by {
      assert Additions([1, 2], hashes[..1][..0], 1) == [];
    }
    assert adds[0] == Addition([7], Entry([1, 2][0..1], 0)) && adds[1] == Addition([7], Entry([1, 2][1..2], 1));
    assert [1, 2][0..1][0] == 1 && [1, 2][1..2][0] == 2;
    AddKeepsAgreementIff(EMPTY_INDEX, adds);
  }

  lemma NewHashesNext(x: Index, front: seq<Addition>, last: Addition)
    ensures NewHashes(x, front + [last]) == NewHashes(x, front) + if last.hash in x.byHash then {} else {last.hash}
  {
    var adds := front + [last];
    forall h | h in NewHashes(x, front)
      ensures h in NewHashes(x, adds)
    {
      var i :| 0 <= i < |front| && front[i].hash !in x.byHash && front[i].hash == h;
      assert adds[i] == front[i];
    }
    assert adds[|front|] == last;
    forall h | h in NewHashes(x, adds) && h != last.hash
      ensures h in NewHashes(x, front)
    {
      var i :| 0 <= i < |adds| && adds[i].hash !in x.byHash && adds[i].hash == h;
      assert adds[i] == front[i];
    }
  }

  lemma {:induction false} RegisterAllKeys(x: Index, adds: seq<Addition>)
    requires NonEmptyChunks(adds)
    ensures RegisterAll(x, adds).byHash.Keys == x.byHash.Keys + NewHashes(x, adds)
  {
    if adds != [] {
      var front, last := adds[..|adds| - 1], adds[|adds| - 1];
      RegisterAllKeys(x, front);
      NewHashesNext(x, front, last);
      assert adds == front + [last];
    }
  }

  /** The capacity check is exact: it compares the size the index will have. */
  lemma RegisterAllSize(x: Index, adds: seq<Addition>)
    requires NonEmptyChunks(adds)
    ensures |RegisterAll(x, adds).byHash| == |x.byHash| + |NewHashes(x, adds)|
  {
    RegisterAllKeys(x, adds);
    var y := RegisterAll(x, adds);
    assert x.byHash.Keys !! NewHashes(x, adds);
    assert |y.byHash| == |y.byHash.Keys| && |x.byHash| == |x.byHash.Keys|;
  }

  // ----- evicting chunks

  function Evict(x: Index, h: Hash): Index {
    if h !in x.byHash then x
    else
      var chunk := x.byHash[h].chunk;
      var byHash := x.byHash - {h};
      // A stored chunk is never empty, so its first token always exists.
      if chunk == [] || chunk[0] !in x.byFirst then Index(x.byFirst, byHash)
      else
        var bucket := x.byFirst[chunk[0]] - {h};
        Index(if bucket == map[] then x.byFirst - {chunk[0]} else x.byFirst[chunk[0] := bucket], byHash)
  }

  function EvictAll(x: Index, hashes: seq<Hash>): Index {
    if hashes == [] then x else Evict(EvictAll(x, hashes[..|hashes| - 1]), hashes[|hashes| - 1])
  }

  lemma EvictAgrees(x: Index, h: Hash)
    requires Agree(x)
    ensures Agree(Evict(x, h))
  {
    var y := Evict(x, h);
    if h in x.byHash {
      forall k | k in y.byHash
        ensures InBucket(y, y.byHash[k].chunk[0], k, y.byHash[k])
      {
        assert InBucket(x, x.byHash[k].chunk[0], k, x.byHash[k]);
        assert k in x.byFirst[x.byHash[k].chunk[0]] - {h};
      }
    }
  }

  lemma EvictRemoves(x: Index, h: Hash)
    ensures Evict(x, h).byHash == x.byHash - {h}
  {
    assert h !in x.byHash ==> x.byHash - {h} == x.byHash;
  }

  lemma {:induction false} EvictAllRemoves(x: Index, hashes: seq<Hash>)
    ensures EvictAll(x, hashes).byHash == x.byHash - ToSet(hashes)
  {
    if hashes == [] {
      assert x.byHash - ToSet(hashes) == x.byHash;
    } else {
      var front, last := hashes[..|hashes| - 1], hashes[|hashes| - 1];
      EvictAllRemoves(x, front);
      EvictRemoves(EvictAll(x, front), last);
      assert hashes == front + [last];
      assert ToSet(hashes) == ToSet(front) + {last};
      assert x.byHash - ToSet(front) - {last} == x.byHash - ToSet(hashes);
    }
  }

  lemma {:induction false} EvictAllAgrees(x: Index, hashes: seq<Hash>)
    requires Agree(x)
    ensures Agree(EvictAll(x, hashes))
    ensures EvictAll(x, hashes).byHash == x.byHash - ToSet(hashes)
  {
    EvictAllRemoves(x, hashes);
    if hashes != [] {
      EvictAllAgrees(x, hashes[..|hashes| - 1]);
      EvictAgrees(EvictAll(x, hashes[..|hashes| - 1]), hashes[|hashes| - 1]);
    }
  }

  // ----- runs of adds and evictions

  predicate HashesOk(hashes: seq<Hash>) { forall i :: 0 <= i < |hashes| ==> hashes[i] != [] }

  lemma ChunkCount(tokens: seq<int>, n: nat, chunkSize: Size)
    requires n == |tokens| / chunkSize
    ensures n * chunkSize <= |tokens|
  {
  }

  /** The effect of registering a batch: all of it, or an error and nothing. */
  function Add(x: Index, chunkSize: Size, tokens: seq<int>, hashes: seq<Hash>): (Index, Outcome) {
    if !HashesOk(hashes) then (x, Failed(InvalidChunkData))
    else if |hashes| != |tokens| / chunkSize then (x, Failed(CountMismatch))
    else
      ChunkCount(tokens, |hashes|, chunkSize);
      var adds := Additions(tokens, hashes, chunkSize);
      AdditionsAreChunks(tokens, hashes, chunkSize);
      if |x.byHash| + |NewHashes(x, adds)| > EXACT_INDEX_LIMIT then (x, Failed(CapacityExceeded))
      else if Conflicts(x, adds) then (x, Failed(IdentityConflict))
      else (RegisterAll(x, adds), Done)
  }

  lemma {:induction false} AdditionsAreChunks(tokens: seq<int>, hashes: seq<Hash>, chunkSize: Size)
    requires |hashes| * chunkSize <= |tokens|
    ensures var adds := Additions(tokens, hashes, chunkSize);
      && NonEmptyChunks(adds)
      && forall i :: 0 <= i < |adds| ==>
        adds[i].hash == hashes[i] && |adds[i].entry.chunk| == chunkSize && adds[i].entry.start == i * chunkSize
  {
    if hashes != [] {
      var k := |hashes| - 1;
      assert k * chunkSize + chunkSize == |hashes| * chunkSize;
      AdditionsAreChunks(tokens, hashes[..k], chunkSize);
    }
  }

  function Remove(x: Index, hashes: seq<Hash>): (Index, Outcome) {
    if !HashesOk(hashes) then (x, Failed(InvalidEvictionHashes)) else (EvictAll(x, hashes), Done)
  }

  datatype Op = AddChunks(tokens: seq<int>, hashes: seq<Hash>) | RemoveChunks(hashes: seq<Hash>)

  function Apply(x: Index, chunkSize: Size, op: Op): Index {
    match op
    case AddChunks(tokens, hashes) => Add(x, chunkSize, tokens, hashes).0
    case RemoveChunks(hashes) => Remove(x, hashes).0
  }

  function Run(chunkSize: Size, ops: seq<Op>): Index {
    if ops == [] then EMPTY_INDEX else Apply(Run(chunkSize, ops[..|ops| - 1]), chunkSize, ops[|ops| - 1])
  }

  /** If the call adds anything to `x`, it carries no hash for chunks with different first tokens. */
  ghost predicate OpOk(x: Index, chunkSize: Size, op: Op) {
    op.AddChunks? && Add(x, chunkSize, op.tokens, op.hashes).1 == Done ==>
      SameFirsts(chunkSize, op.tokens, op.hashes)
  }

  ghost predicate SameFirsts(chunkSize: Size, tokens: seq<int>, hashes: seq<Hash>) {
    |hashes| * chunkSize <= |tokens|
    && var adds := Additions(tokens, hashes, chunkSize);
       NonEmptyChunks(adds) && SharedHashesShareFirst(adds)
  }

  /** Every call of the run is fine where it stands. */
  ghost predicate RunOk(chunkSize: Size, ops: seq<Op>) {
    forall i :: 0 <= i < |ops| ==> OpOk(Run(chunkSize, ops[..i]), chunkSize, ops[i])
  }

  ghost predicate Sound(x: Index, chunkSize: Size) {
    && Agree(x)
    && (forall h :: h in x.byHash ==> |x.byHash[h].chunk| == chunkSize)
    && |x.byHash| <= EXACT_INDEX_LIMIT
  }

  lemma AddSound(x: Index, chunkSize: Size, tokens: seq<int>, hashes: seq<Hash>)
    requires Sound(x, chunkSize) && OpOk(x, chunkSize, AddChunks(tokens, hashes))
    ensures Sound(Add(x, chunkSize, tokens, hashes).0, chunkSize)
  {
    if Add(x, chunkSize, tokens, hashes).1 == Done {
      ChunkCount(tokens, |hashes|, chunkSize);
      var adds := Additions(tokens, hashes, chunkSize);
      AdditionsAreChunks(tokens, hashes, chunkSize);
      RegisterAllAgrees(x, adds);
      RegisterAllSize(x, adds);
      var y := RegisterAll(x, adds);
      forall h | h in y.byHash
        ensures |y.byHash[h].chunk| == chunkSize
      {
        RegisterAllHas(x, adds, h);
      }
    }
  }

  lemma RemoveSound(x: Index, chunkSize: Size, hashes: seq<Hash>)
    requires Sound(x, chunkSize)
    ensures Sound(Remove(x, hashes).0, chunkSize)
  {
    EvictAllAgrees(x, hashes);
    var y := EvictAll(x, hashes);
    SubsetSize(y.byHash.Keys, x.byHash.Keys);
    assert |y.byHash| == |y.byHash.Keys| && |x.byHash| == |x.byHash.Keys|;
  }

  lemma RunOkFront(chunkSize: Size, ops: seq<Op>)
    requires ops != []
    ensures var front := ops[..|ops| - 1];
      RunOk(chunkSize, ops) <==> RunOk(chunkSize, front) && OpOk(Run(chunkSize, front), chunkSize, ops[|ops| - 1])
  {
    var front := ops[..|ops| - 1];
    forall i | 0 <= i < |front|
      ensures front[..i] == ops[..i] && front[i] == ops[i]
    {
    }
    assert RunOk(chunkSize, ops) ==> OpOk(Run(chunkSize, ops[..|ops| - 1]), chunkSize, ops[|ops| - 1]);
    if RunOk(chunkSize, ops) {
      forall i | 0 <= i < |front|
        ensures OpOk(Run(chunkSize, front[..i]), chunkSize, front[i])
      {
        assert OpOk(Run(chunkSize, ops[..i]), chunkSize, ops[i]);
      }
    }
    if RunOk(chunkSize, front) && OpOk(Run(chunkSize, front), chunkSize, ops[|ops| - 1]) {
      forall i | 0 <= i < |ops|
        ensures OpOk(Run(chunkSize, ops[..i]), chunkSize, ops[i])
      {
        if i < |front| {
          assert OpOk(Run(chunkSize, front[..i]), chunkSize, front[i]);
        }
      }
    }
  }

  lemma OpSound(x: Index, chunkSize: Size, op: Op)
    requires Sound(x, chunkSize) && OpOk(x, chunkSize, op)
    ensures Sound(Apply(x, chunkSize, op), chunkSize)
  {
    match op {
      case AddChunks(tokens, hashes) => AddSound(x, chunkSize, tokens, hashes);
      case RemoveChunks(hashes) => RemoveSound(x, chunkSize, hashes);
    }
  }

  /** After any run in which every successful add is fine where it stands, the dictionaries
      agree, no bucket is empty, and the index is within its limit. */
  lemma {:induction false} RunSound(chunkSize: Size, ops: seq<Op>)
    requires RunOk(chunkSize, ops)
    ensures Sound(Run(chunkSize, ops), chunkSize)
  {
    if ops != [] {
      var front := ops[..|ops| - 1];
      RunOkFront(chunkSize, ops);
      RunSound(chunkSize, front);
      OpSound(Run(chunkSize, front), chunkSize, ops[|ops| - 1]);
    }
  }

  /** A successful add that leaves the dictionaries in agreement was fine. */
  lemma AgreementShowsOk(x: Index, chunkSize: Size, op: Op)
    requires Agree(x) && Agree(Apply(x, chunkSize, op))
    ensures OpOk(x, chunkSize, op)
  {
    if op.AddChunks? && Add(x, chunkSize, op.tokens, op.hashes).1 == Done {
      ChunkCount(op.tokens, |op.hashes|, chunkSize);
      AdditionsAreChunks(op.tokens, op.hashes, chunkSize);
      AddKeepsAgreementIff(x, Additions(op.tokens, op.hashes, chunkSize));
    }
  }

  ghost predicate AlwaysAgrees(chunkSize: Size, ops: seq<Op>) {
    forall i :: 0 <= i <= |ops| ==> Agree(Run(chunkSize, ops[..i]))
  }

  /** The dictionaries agree throughout a run exactly when every successful add of it is fine. */
  lemma RunAgreesIff(chunkSize: Size, ops: seq<Op>)
    ensures AlwaysAgrees(chunkSize, ops) <==> RunOk(chunkSize, ops)
  {
    if AlwaysAgrees(chunkSize, ops) {
      forall i | 0 <= i < |ops|
        ensures OpOk(Run(chunkSize, ops[..i]), chunkSize, ops[i])
      {
        assert Agree(Run(chunkSize, ops[..i])) && Agree(Run(chunkSize, ops[..i + 1]));
        assert ops[..i + 1][..i] == ops[..i];
        AgreementShowsOk(Run(chunkSize, ops[..i]), chunkSize, ops[i]);
      }
    }
    if RunOk(chunkSize, ops) {
      forall i | 0 <= i <= |ops|
        ensures Agree(Run(chunkSize, ops[..i]))
      {
        RunOkTake(chunkSize, ops, i);
        RunSound(chunkSize, ops[..i]);
      }
    }
  }

  lemma RunOkTake(chunkSize: Size, ops: seq<Op>, n: nat)
    requires RunOk(chunkSize, ops) && n <= |ops|
    ensures RunOk(chunkSize, ops[..n])
  {
    var front := ops[..n];
    forall i | 0 <= i < n
      ensures OpOk(Run(chunkSize, front[..i]), chunkSize, front[i])
    {
      assert front[..i] == ops[..i];
    }
  }

  /** The addition whose entry a hash ends up with: the last one that carries it. */
  lemma {:induction false} LastAddition(x: Index, adds: seq<Addition>, i: nat) returns (k: nat)
    requires NonEmptyChunks(adds) && i < |adds|
    ensures i <= k < |adds| && adds[k].hash == adds[i].hash
    ensures adds[i].hash in RegisterAll(x, adds).byHash && RegisterAll(x, adds).byHash[adds[i].hash] == adds[k].entry
    ensures forall l :: k < l < |adds| ==> adds[l].hash != adds[i].hash
  {
    if adds[|adds| - 1].hash == adds[i].hash {
      k := |adds| - 1;
    } else {
      k := LastAddition(x, adds[..|adds| - 1], i);
    }
  }

  ghost predicate StartsDiffer(adds: seq<Addition>) {
    forall i, j :: 0 <= i < j < |adds| ==> adds[i].entry.start != adds[j].entry.start
  }

  lemma AdditionStarts(tokens: seq<int>, hashes: seq<Hash>, chunkSize: Size)
    requires |hashes| * chunkSize <= |tokens|
    ensures StartsDiffer(Additions(tokens, hashes, chunkSize))
  {
    AdditionsAreChunks(tokens, hashes, chunkSize);
    forall i, j | 0 <= i < j < |hashes|
      ensures i * chunkSize < j * chunkSize
    {
    }
  }

  lemma RepeatConflictsIff(x: Index, adds: seq<Addition>)
    requires NonEmptyChunks(adds) && StartsDiffer(adds)
    ensures NewHashes(RegisterAll(x, adds), adds) == {}
    ensures Conflicts(RegisterAll(x, adds), adds) <==>
      exists i, j :: 0 <= i < j < |adds| && adds[i].hash == adds[j].hash
  {
    var y := RegisterAll(x, adds);
    forall i | 0 <= i < |adds|
      ensures adds[i].hash in y.byHash
      ensures y.byHash[adds[i].hash] == adds[i].entry <==> forall l :: i < l < |adds| ==> adds[l].hash != adds[i].hash
    {
      var k := LastAddition(x, adds, i);
    }
  }

  /** Registering a batch a second time succeeds exactly when its hashes are distinct: a repeated
      hash stands at two positions, and only the last one was kept. */
  lemma RepeatedAddSucceedsIff(x: Index, chunkSize: Size, tokens: seq<int>, hashes: seq<Hash>)
    requires Add(x, chunkSize, tokens, hashes).1 == Done
    ensures Add(Add(x, chunkSize, tokens, hashes).0, chunkSize, tokens, hashes).1 == Done <==> Distinct(hashes)
  {
    ChunkCount(tokens, |hashes|, chunkSize);
    var adds := Additions(tokens, hashes, chunkSize);
    AdditionsAreChunks(tokens, hashes, chunkSize);
    AdditionStarts(tokens, hashes, chunkSize);
    RepeatConflictsIff(x, adds);
    RegisterAllSize(x, adds);
    NothingNew(RegisterAll(x, adds), chunkSize, tokens, hashes);
    DistinctHashes(adds, hashes);
  }

  lemma DistinctHashes(adds: seq<Addition>, hashes: seq<Hash>)
    requires |adds| == |hashes| && forall i :: 0 <= i < |adds| ==> adds[i].hash == hashes[i]
    ensures Distinct(hashes) <==> !exists i, j :: 0 <= i < j < |adds| && adds[i].hash == adds[j].hash
  {
  }

  lemma NothingNew(y: Index, chunkSize: Size, tokens: seq<int>, hashes: seq<Hash>)
    requires HashesOk(hashes) && |hashes| == |tokens| / chunkSize && |hashes| * chunkSize <= |tokens|
    requires NewHashes(y, Additions(tokens, hashes, chunkSize)) == {} && |y.byHash| <= EXACT_INDEX_LIMIT
    ensures Add(y, chunkSize, tokens, hashes).1 == Done <==> !Conflicts(y, Additions(tokens, hashes, chunkSize))
  {
  }

  // ----- searching a prompt

  datatype Match = Match(oldStart: nat, oldEnd: nat, curStart: nat, curEnd: nat, hash: Hash)

  predicate OccursAt(tokens: seq<int>, chunk: seq<int>, at: nat) {
    at + |chunk| <= |tokens| && tokens[at..at + |chunk|] == chunk
  }

  ghost predicate FirstAt(tokens: seq<int>, chunk: seq<int>, at: nat) {
    OccursAt(tokens, chunk, at) && forall p: nat :: p < at ==> !OccursAt(tokens, chunk, p)
  }

  function MatchOf(h: Hash, e: Entry, at: nat): Match {
    Match(e.start, e.start + |e.chunk|, at, at + |e.chunk|, h)
  }

  /** The reference: every stored chunk that occurs in the prompt, at its first occurrence. */
  ghost function BruteForce(byHash: map<Hash, Entry>, tokens: seq<int>): set<Match> {
    set h, at: nat | h in byHash && at <= |tokens| && FirstAt(tokens, byHash[h].chunk, at) :: MatchOf(h, byHash[h], at)
  }

  /** `m` is the match of a stored hash at its first occurrence. */
  ghost predicate IsMatch(byHash: map<Hash, Entry>, tokens: seq<int>, m: Match) {
    m.hash in byHash && FirstAt(tokens, byHash[m.hash].chunk, m.curStart)
      && m == MatchOf(m.hash, byHash[m.hash], m.curStart)
  }

  function HashesOf(results: seq<Match>): set<Hash> { set i | 0 <= i < |results| :: results[i].hash }

  /** Progress of the search at query offset `at`, with the hashes in `pending` still to be tried there. */
  ghost predicate Searched(
      byHash: map<Hash, Entry>, tokens: seq<int>, results: seq<Match>, at: nat, pending: set<Hash>)
  {
    && (forall i :: 0 <= i < |results| ==> IsMatch(byHash, tokens, results[i]) && results[i].curStart <= at)
    && (forall i, j :: 0 <= i < j < |results| ==>
      results[i].hash != results[j].hash && results[i].curStart <= results[j].curStart)
    && (forall h, p: nat :: h in byHash && p <= at && OccursAt(tokens, byHash[h].chunk, p) ==>
          h in HashesOf(results) || (p == at && h in pending))
  }

  /** Moving to a query offset, only hashes in the bucket of its token need trying. */
  lemma OnlyBucketOccurs(x: Index, chunkSize: Size, tokens: seq<int>, at: nat, h: Hash)
    requires Sound(x, chunkSize) && at < |tokens| && h in x.byHash && OccursAt(tokens, x.byHash[h].chunk, at)
    ensures InBucket(x, tokens[at], h, x.byHash[h])
  {
    var chunk := x.byHash[h].chunk;
    assert tokens[at..at + |chunk|][0] == tokens[at];
  }

  lemma BucketIsStored(x: Index, f: int, bucket: map<Hash, Entry>)
    requires Agree(x) && bucket == if f in x.byFirst then x.byFirst[f] else map[]
    ensures forall h :: h in bucket ==> h in x.byHash && x.byHash[h] == bucket[h]
  {
  }

  lemma SkipHash(byHash: map<Hash, Entry>, tokens: seq<int>, results: seq<Match>, at: nat, pending: set<Hash>, h: Hash)
    requires Searched(byHash, tokens, results, at, pending) && h in byHash
    requires h in HashesOf(results) || !OccursAt(tokens, byHash[h].chunk, at)
    ensures Searched(byHash, tokens, results, at, pending - {h})
  {
  }

  lemma TakeHash(byHash: map<Hash, Entry>, tokens: seq<int>, results: seq<Match>, at: nat, pending: set<Hash>, h: Hash)
    requires Searched(byHash, tokens, results, at, pending) && h in byHash
    requires h !in HashesOf(results) && OccursAt(tokens, byHash[h].chunk, at)
    ensures Searched(byHash, tokens, results + [MatchOf(h, byHash[h], at)], at, pending - {h})
  {
    var m := MatchOf(h, byHash[h], at);
    HashesNext(results, m);
    assert FirstAt(tokens, byHash[h].chunk, at);
    forall i | 0 <= i < |results|
      ensures results[i].hash != h
    {
      assert results[i].hash in HashesOf(results);
    }
  }

  lemma HashesNext(results: seq<Match>, m: Match)
    ensures HashesOf(results + [m]) == HashesOf(results) + {m.hash}
  {
    var all := results + [m];
    forall h | h in HashesOf(results)
      ensures h in HashesOf(all)
    {
      var i :| 0 <= i < |results| && results[i].hash == h;
      assert all[i] == results[i];
    }
    assert all[|results|] == m;
    forall h | h in HashesOf(all) && h != m.hash
      ensures h in HashesOf(results)
    {
      var i :| 0 <= i < |all| && all[i].hash == h;
      assert all[i] == results[i];
    }
  }

  lemma NextOffset(x: Index, chunkSize: Size, tokens: seq<int>, results: seq<Match>, at: nat, pending: set<Hash>)
    requires Sound(x, chunkSize) && Searched(x.byHash, tokens, results, at, {})
    requires at + 1 < |tokens| && pending == if tokens[at + 1] in x.byFirst then x.byFirst[tokens[at + 1]].Keys else {}
    ensures Searched(x.byHash, tokens, results, at + 1, pending)
  {
    forall h, p: nat | h in x.byHash && p <= at + 1 && OccursAt(tokens, x.byHash[h].chunk, p)
      ensures h in HashesOf(results) || (p == at + 1 && h in pending)
    {
      if p == at + 1 {
        OnlyBucketOccurs(x, chunkSize, tokens, at + 1, h);
      }
    }
  }

  lemma FirstOffset(x: Index, chunkSize: Size, tokens: seq<int>, pending: set<Hash>)
    requires Sound(x, chunkSize) && tokens != []
    requires pending == if tokens[0] in x.byFirst then x.byFirst[tokens[0]].Keys else {}
    ensures Searched(x.byHash, tokens, [], 0, pending)
  {
    forall h, p: nat | h in x.byHash && p <= 0 && OccursAt(tokens, x.byHash[h].chunk, p)
      ensures h in pending
    {
      OnlyBucketOccurs(x, chunkSize, tokens, 0, h);
    }
  }

  /** A finished search is the reference, each match once. */
  lemma SearchIsBruteForce(byHash: map<Hash, Entry>, chunkSize: Size, tokens: seq<int>, results: seq<Match>, last: nat)
    requires forall h :: h in byHash ==> |byHash[h].chunk| == chunkSize
    requires Searched(byHash, tokens, results, last, {}) && last + chunkSize == |tokens|
    ensures ToSet(results) == BruteForce(byHash, tokens)
  {
    forall m | m in BruteForce(byHash, tokens)
      ensures m in results
    {
      var h, at: nat :| h in byHash && at <= |tokens| && FirstAt(tokens, byHash[h].chunk, at)
        && MatchOf(h, byHash[h], at) == m;
      assert h in HashesOf(results);
      var i :| 0 <= i < |results| && results[i].hash == h;
      FirstUnique(tokens, byHash[h].chunk, at, results[i].curStart);
    }
    forall m | m in results
      ensures m in BruteForce(byHash, tokens)
    {
      var i :| 0 <= i < |results| && results[i] == m;
      assert IsMatch(byHash, tokens, results[i]);
    }
  }

  lemma FirstUnique(tokens: seq<int>, chunk: seq<int>, p: nat, q: nat)
    requires FirstAt(tokens, chunk, p) && FirstAt(tokens, chunk, q)
    ensures p == q
  {
  }

  lemma NothingFits(byHash: map<Hash, Entry>, chunkSize: Size, tokens: seq<int>)
    requires forall h :: h in byHash ==> |byHash[h].chunk| == chunkSize
    requires |tokens| < chunkSize
    ensures BruteForce(byHash, tokens) == {}
  {
  }

  class Matcher {
    const chunkSize: Size
    var index: Index

    constructor (chunkSize: Size)
      ensures this.chunkSize == chunkSize && index == EMPTY_INDEX
    {
      this.chunkSize := chunkSize;
      index := EMPTY_INDEX;
    }

    method OnNewTokenHashes(tokens: seq<int>, hashes: seq<Hash>) returns (r: Outcome)
      modifies this
      ensures (index, r) == Add(old(index), chunkSize, tokens, hashes)
    {
      if exists i :: 0 <= i < |hashes| && hashes[i] == [] {
        return Failed(InvalidChunkData);
      }
      if |hashes| != |tokens| / chunkSize {
        return Failed(CountMismatch);
      }
      ChunkCount(tokens, |hashes|, chunkSize);
      var additions := CollectAdditions(tokens, hashes, chunkSize);
      AdditionsAreChunks(tokens, hashes, chunkSize);
      if |index.byHash| + |NewHashes(index, additions)| > EXACT_INDEX_LIMIT {
        return Failed(CapacityExceeded);
      }
      var conflict := HasConflict(additions);
      if conflict {
        return Failed(IdentityConflict);
      }
      RegisterEach(additions);
      return Done;
    }

    method HasConflict(additions: seq<Addition>) returns (conflict: bool)
      ensures conflict <==> Conflicts(index, additions)
    {
      for i := 0 to |additions|
        invariant !Conflicts(index, additions[..i])
      {
        var a := additions[i];
        if a.hash in index.byHash && index.byHash[a.hash] != a.entry {
          return true;
        }
      }
      TakeAll(additions);
      return false;
    }

    method RegisterEach(additions: seq<Addition>)
      requires NonEmptyChunks(additions)
      modifies this
      ensures index == RegisterAll(old(index), additions)
    {
      ghost var before := index;
      for i := 0 to |additions|
        invariant index == RegisterAll(before, additions[..i])
      {
        assert additions[..i + 1][..i] == additions[..i];
        index := Register(index, additions[i]);
      }
      TakeAll(additions);
    }

    method RemoveChunks(hashes: seq<Hash>) returns (r: Outcome)
      modifies this
      ensures (index, r) == Remove(old(index), hashes)
    {
      if exists i :: 0 <= i < |hashes| && hashes[i] == [] {
        return Failed(InvalidEvictionHashes);
      }
      ghost var before := index;
      for i := 0 to |hashes|
        invariant index == EvictAll(before, hashes[..i])
      {
        assert hashes[..i + 1][..i] == hashes[..i];
        index := Evict(index, hashes[i]);
      }
      TakeAll(hashes);
      return Done;
    }

    /** One match per stored hash whose chunk occurs, at its first occurrence, left to right. */
    method MatchSubSequence(tokens: seq<int>) returns (results: seq<Match>)
      requires Sound(index, chunkSize)
      ensures ToSet(results) == BruteForce(index.byHash, tokens)
      ensures forall i, j :: 0 <= i < j < |results| ==>
                results[i].hash != results[j].hash && results[i].curStart <= results[j].curStart
    {
      results := [];
      if |tokens| < chunkSize {
        NothingFits(index.byHash, chunkSize, tokens);
        return;
      }
      var seen: set<Hash> := {};
      var last := |tokens| - chunkSize;
      for at := 0 to last + 1
        invariant seen == HashesOf(results)
        invariant if at == 0 then results == [] else Searched(index.byHash, tokens, results, at - 1, {})
      {
        var bucket := if tokens[at] in index.byFirst then index.byFirst[tokens[at]] else map[];
        if at == 0 {
          FirstOffset(index, chunkSize, tokens, bucket.Keys);
        } else {
          NextOffset(index, chunkSize, tokens, results, at - 1, bucket.Keys);
        }
        BucketIsStored(index, tokens[at], bucket);
        results, seen := TryBucket(index.byHash, chunkSize, tokens, at, bucket, results, seen);
      }
      SearchIsBruteForce(index.byHash, chunkSize, tokens, results, last);
    }
  }

  /** Tries every entry of one bucket at one offset, in any order. */
  method TryBucket(ghost byHash: map<Hash, Entry>, chunkSize: Size, tokens: seq<int>, at: nat, bucket: map<Hash, Entry>,
                   before: seq<Match>, seenBefore: set<Hash>)
      returns (results: seq<Match>, seen: set<Hash>)
    requires at + chunkSize <= |tokens| && seenBefore == HashesOf(before)
    requires forall h :: h in bucket ==> h in byHash && byHash[h] == bucket[h] && |bucket[h].chunk| == chunkSize
    requires Searched(byHash, tokens, before, at, bucket.Keys)
    ensures seen == HashesOf(results)
    ensures Searched(byHash, tokens, results, at, {})
  {
    results, seen := before, seenBefore;
    var pending := bucket.Keys;
    while pending != {}
      invariant pending <= bucket.Keys
      invariant seen == HashesOf(results)
      invariant Searched(byHash, tokens, results, at, pending)
      decreases |pending|
    {
      var h :| h in pending;
      assert h in bucket;
      if h !in seen && tokens[at..at + chunkSize] == bucket[h].chunk {
        TakeHash(byHash, tokens, results, at, pending, h);
        HashesNext(results, MatchOf(h, bucket[h], at));
        results := results + [MatchOf(h, bucket[h], at)];
        seen := seen + {h};
      } else {
        SkipHash(byHash, tokens, results, at, pending, h);
      }
      pending := pending - {h};
    }
  }

  method CollectAdditions(tokens: seq<int>, hashes: seq<Hash>, chunkSize: Size) returns (adds: seq<Addition>)
    requires |hashes| * chunkSize <= |tokens|
    ensures adds == Additions(tokens, hashes, chunkSize)
  {
    adds := [];
    for k := 0 to |hashes|
      invariant k * chunkSize <= |tokens|
      invariant adds == Additions(tokens, hashes[..k], chunkSize)
    {
      ChunkFits(k, |hashes|, chunkSize);
      AdditionsNext(tokens, hashes, chunkSize, k);
      var start := k * chunkSize;
      adds := adds + [Addition(hashes[k], Entry(tokens[start..start + chunkSize], start))];
    }
    TakeAll(hashes);
  }

  lemma ChunkFits(k: nat, n: nat, size: nat)
    requires k < n
    ensures (k + 1) * size == k * size + size && (k + 1) * size <= n * size
  {
  }

  lemma AdditionsNext(tokens: seq<int>, hashes: seq<Hash>, chunkSize: Size, k: nat)
    requires k < |hashes| && k * chunkSize <= |tokens| && (k + 1) * chunkSize <= |tokens|
      && (k + 1) * chunkSize == k * chunkSize + chunkSize
    ensures Additions(tokens, hashes[..k + 1], chunkSize)
         == Additions(tokens, hashes[..k], chunkSize)
           + [Addition(hashes[k], Entry(tokens[k * chunkSize..k * chunkSize + chunkSize], k * chunkSize))]
  {
    assert hashes[..k + 1][..k] == hashes[..k];
  }
}
