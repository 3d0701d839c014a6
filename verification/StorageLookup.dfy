/** Verifies untrusted storage candidates against the sidecar and selects the plan. */
module StorageLookup {
  import opened Order
  import opened Ranges
  import opened Models
  import opened IntervalSelection

  const CACHE_KEY_PREFIX := "lmcache:0.4.3:blake3:"

  datatype RawCandidate = RawCandidate(
    sourceRelative: TokenRange,
    target: TokenRange,
    storageHash: Bytes,
    storageModelName: string,
    queryDigest: Bytes)

  /** An untrusted match reported by the storage matcher. */
  type StorageCandidate = c: RawCandidate |
    0 < Len(c.target) == Len(c.sourceRelative)
    witness RawCandidate(Bounds(0, 1), Bounds(0, 1), [], "", [])

  function HexDigit(n: nat): char
    requires n < 16
  {
    "0123456789abcdef"[n]
  }

  function Hex(bytes: Bytes): string {
    if bytes == [] then ""
    else Hex(bytes[..|bytes| - 1]) + [HexDigit(bytes[|bytes| - 1] / 16), HexDigit(bytes[|bytes| - 1] % 16)]
  }

  function CacheKey(c: StorageCandidate): string { CACHE_KEY_PREFIX + Hex(c.storageHash) }

  /** What the coordinator depends on: the namespace, the two hash functions, and the record
      lookup, which may fail. */
  datatype Environment = Environment(
    namespace: CacheNamespace,
    fingerprint: Fingerprinter,
    digest: seq<TokenId> -> Bytes,
    lookup: (CacheNamespace, SegmentFingerprint) -> Option<seq<CacheRecord>>)

  datatype Reason =
    | StaleQuery
    | NoSidecarRecord
    | CacheKeyMismatch
    | NamespaceMismatch
    | FingerprintMismatch
    | TokenMismatch
    | SourcePositionAmbiguous
    | DuplicateCandidate
    | OverlapsSelectedCandidate

  function ReasonText(r: Reason): string {
    match r
    case StaleQuery => "stale_query"
    case NoSidecarRecord => "no_sidecar_record"
    case CacheKeyMismatch => "cache_key_mismatch"
    case NamespaceMismatch => "namespace_mismatch"
    case FingerprintMismatch => "fingerprint_mismatch"
    case TokenMismatch => "token_mismatch"
    case SourcePositionAmbiguous => "source_position_ambiguous"
    case DuplicateCandidate => "duplicate_candidate"
    case OverlapsSelectedCandidate => "overlaps_selected_candidate"
  }

  /** Reasons that imply the sidecar had a record under the candidate's key. */
  predicate FoundReason(r: Reason) { r !in {StaleQuery, NoSidecarRecord, CacheKeyMismatch} }

  datatype Verdict = Reject(reason: Reason) | Accept(record: CacheRecord)

  function TargetSegment(prompt: seq<TokenId>, c: StorageCandidate): TokenSegment
    requires c.target.end <= |prompt|
  {
    Segment(c.target, prompt[c.target.start..c.target.end])
  }

  function VerifyRecord(env: Environment, target: TokenSegment, f: SegmentFingerprint, r: CacheRecord): Option<Reason> {
    if r.namespace != env.namespace then Some(NamespaceMismatch)
    else if r.fingerprint != f then Some(FingerprintMismatch)
    else if r.tokens != target.tokens then Some(TokenMismatch)
    else if env.fingerprint(r.namespace, r.tokens) != r.fingerprint then Some(FingerprintMismatch)
    else None
  }

  predicate Verifies(env: Environment, target: TokenSegment, f: SegmentFingerprint, r: CacheRecord) {
    VerifyRecord(env, target, f, r).None?
  }

  function Priority(r: Reason): nat {
    match r
    case NamespaceMismatch => 0
    case FingerprintMismatch => 1
    case _ => 2
  }

  /** The reason of highest priority among records that all fail. */
  function FirstReason(env: Environment, target: TokenSegment, f: SegmentFingerprint, bound: seq<CacheRecord>): Reason
    requires bound != [] && forall r :: r in bound ==> !Verifies(env, target, f, r)
  {
    assert !Verifies(env, target, f, bound[|bound| - 1]);
    var last := VerifyRecord(env, target, f, bound[|bound| - 1]).value;
    if |bound| == 1 then last
    else
      var rest := FirstReason(env, target, f, bound[..|bound| - 1]);
      if Priority(last) < Priority(rest) then last else rest
  }

  /** The candidate stays inside the prompt, and the lookup answers if it is asked. */
  predicate Answered(env: Environment, prompt: seq<TokenId>, c: StorageCandidate) {
    && c.target.end <= |prompt|
    && (c.queryDigest == env.digest(prompt) ==>
          env.lookup(env.namespace, env.fingerprint(env.namespace, TargetSegment(prompt, c).tokens)).Some?)
  }

  function BoundRecords(c: StorageCandidate, bucket: seq<CacheRecord>): seq<CacheRecord> {
    Filter((r: CacheRecord) => r.cacheKey == CacheKey(c), bucket)
  }

  /** What becomes of one candidate before the selection. */
  function Judge(env: Environment, prompt: seq<TokenId>, c: StorageCandidate): Verdict
    requires Answered(env, prompt, c)
  {
    if c.queryDigest != env.digest(prompt) then Reject(StaleQuery)
    else
      var target := TargetSegment(prompt, c);
      var f := env.fingerprint(env.namespace, target.tokens);
      JudgeBucket(env, target, f, c, env.lookup(env.namespace, f).value)
  }

  function JudgeBucket(
      env: Environment, target: TokenSegment, f: SegmentFingerprint, c: StorageCandidate,
      bucket: seq<CacheRecord>): Verdict
  {
    if bucket == [] then Reject(NoSidecarRecord)
    else
      var bound := BoundRecords(c, bucket);
      if bound == [] then Reject(CacheKeyMismatch)
      else
        var valid := Filter(r => Verifies(env, target, f, r), bound);
        if valid == [] then
          NoneVerify(env, target, f, bound);
          Reject(FirstReason(env, target, f, bound))
        else if exists i :: 0 <= i < |valid| && valid[i].sourceRange != valid[0].sourceRange then
          Reject(SourcePositionAmbiguous)
        else Accept(valid[0])
  }

  lemma NoneVerify(env: Environment, target: TokenSegment, f: SegmentFingerprint, bound: seq<CacheRecord>)
    requires Filter(r => Verifies(env, target, f, r), bound) == []
    ensures forall r :: r in bound ==> !Verifies(env, target, f, r)
  {
    forall r | r in bound
      ensures !Verifies(env, target, f, r)
    {
      FilterMembers(r => Verifies(env, target, f, r), bound, r);
    }
  }

  /** What an accepted record proves about the prompt. */
  ghost predicate Proven(env: Environment, prompt: seq<TokenId>, c: StorageCandidate, r: CacheRecord) {
    && c.target.end <= |prompt|
    && r.tokens == prompt[c.target.start..c.target.end]
    && r.namespace == env.namespace
    && r.fingerprint == env.fingerprint(env.namespace, r.tokens)
    && r.cacheKey == CacheKey(c)
    && (var bucket := env.lookup(env.namespace, r.fingerprint);
        && bucket.Some? && r in bucket.value
        && forall q :: q in bucket.value && SameObject(q, r) ==> q == r)
  }

  /** Records that claim the same stored object: same key, tokens and identity. */
  predicate SameObject(q: CacheRecord, r: CacheRecord) {
    q.cacheKey == r.cacheKey && q.tokens == r.tokens && q.namespace == r.namespace && q.fingerprint == r.fingerprint
  }

  /** Acceptance: the exact tokens, under the candidate's own key, and no other position in the
      bucket that could have produced the stored object. */
  lemma AcceptedIsProven(env: Environment, prompt: seq<TokenId>, c: StorageCandidate)
    requires Answered(env, prompt, c) && Judge(env, prompt, c).Accept?
    ensures Proven(env, prompt, c, Judge(env, prompt, c).record)
  {
    var target := TargetSegment(prompt, c);
    var f := env.fingerprint(env.namespace, target.tokens);
    var bucket := env.lookup(env.namespace, f).value;
    var bound := BoundRecords(c, bucket);
    var valid := Filter(r => Verifies(env, target, f, r), bound);
    var r := Judge(env, prompt, c).record;
    assert r == valid[0];
    FilterMembers(r => Verifies(env, target, f, r), bound, r);
    FilterMembers((r: CacheRecord) => r.cacheKey == CacheKey(c), bucket, r);
    forall q | q in bucket && SameObject(q, r)
      ensures q == r
    {
      FilterMembers((r: CacheRecord) => r.cacheKey == CacheKey(c), bucket, q);
      FilterMembers(r => Verifies(env, target, f, r), bound, q);
      var i :| 0 <= i < |valid| && valid[i] == q;
    }
  }

  lemma VerifiesIs(env: Environment, target: TokenSegment, f: SegmentFingerprint, r: CacheRecord)
    requires f == env.fingerprint(env.namespace, target.tokens)
    ensures Verifies(env, target, f, r) <==>
      r.namespace == env.namespace && r.fingerprint == f && r.tokens == target.tokens
  {
  }

  /** A provable record is found: it verifies, and every other bound record that does is it. */
  lemma ProvenIsAccepted(env: Environment, prompt: seq<TokenId>, c: StorageCandidate, r: CacheRecord)
    requires Answered(env, prompt, c) && c.queryDigest == env.digest(prompt) && Proven(env, prompt, c, r)
    ensures Judge(env, prompt, c) == Accept(r)
  {
    var target := TargetSegment(prompt, c);
    var f := r.fingerprint;
    var bucket := env.lookup(env.namespace, f).value;
    var bound := BoundRecords(c, bucket);
    var valid := Filter(r => Verifies(env, target, f, r), bound);
    VerifiesIs(env, target, f, r);
    FilterMembers((r: CacheRecord) => r.cacheKey == CacheKey(c), bucket, r);
    FilterMembers(r => Verifies(env, target, f, r), bound, r);
    forall i | 0 <= i < |valid|
      ensures valid[i] == r
    {
      var q := valid[i];
      FilterMembers(r => Verifies(env, target, f, r), bound, q);
      FilterMembers((r: CacheRecord) => r.cacheKey == CacheKey(c), bucket, q);
      VerifiesIs(env, target, f, q);
      assert SameObject(q, r);
    }
  }

  /** A candidate is accepted with a record exactly when its query is current and the record is
      provable for it, so a selection among the accepted is one among everything provable. */
  lemma AcceptedIff(env: Environment, prompt: seq<TokenId>, c: StorageCandidate, r: CacheRecord)
    requires Answered(env, prompt, c)
    ensures Judge(env, prompt, c) == Accept(r) <==> c.queryDigest == env.digest(prompt) && Proven(env, prompt, c, r)
  {
    if Judge(env, prompt, c) == Accept(r) {
      AcceptedIsProven(env, prompt, c);
    } else if c.queryDigest == env.digest(prompt) && Proven(env, prompt, c, r) {
      ProvenIsAccepted(env, prompt, c, r);
    }
  }

  /** The re-check made when a record is bound to a candidate. */
  predicate Binds(env: Environment, c: StorageCandidate, target: TokenSegment, f: SegmentFingerprint, r: CacheRecord) {
    && r.namespace == env.namespace
    && c.target == target.range
    && CacheKey(c) == r.cacheKey
    && r.tokens == target.tokens
    && f == env.fingerprint(env.namespace, target.tokens) == r.fingerprint
    && Len(c.target) == |target.tokens|
  }

  // ----- one pass over all candidates

  datatype Potential = Potential(rawIndex: nat, candidate: StorageCandidate, record: CacheRecord)
  datatype Rejection = Rejection(rawIndex: nat, candidate: StorageCandidate, reason: Reason)

  ghost predicate AllAnswered(env: Environment, prompt: seq<TokenId>, raw: seq<StorageCandidate>) {
    forall i :: 0 <= i < |raw| ==> Answered(env, prompt, raw[i])
  }

  /** Candidate `k` is the first that cannot be answered, and `error` says why: its target leaves
      the prompt, or else the lookup it needs fails. */
  ghost predicate FailsAt(env: Environment, prompt: seq<TokenId>, raw: seq<StorageCandidate>, error: Error, k: nat) {
    && k < |raw| && AllAnswered(env, prompt, raw[..k]) && !Answered(env, prompt, raw[k])
    && error == if raw[k].target.end > |prompt| then TargetRangeOutOfBounds else SidecarLookupFailed
  }

  ghost predicate FailsFirst(env: Environment, prompt: seq<TokenId>, raw: seq<StorageCandidate>, error: Error) {
    exists k :: FailsAt(env, prompt, raw, error, k)
  }

  ghost function Potentials(env: Environment, prompt: seq<TokenId>, raw: seq<StorageCandidate>): seq<Potential>
    requires AllAnswered(env, prompt, raw)
  {
    if raw == [] then []
    else
      var k := |raw| - 1;
      Potentials(env, prompt, raw[..k])
      + (match Judge(env, prompt, raw[k])
         case Accept(r) => [Potential(k, raw[k], r)]
         case Reject(_) => [])
  }

  ghost function Rejections(env: Environment, prompt: seq<TokenId>, raw: seq<StorageCandidate>): seq<Rejection>
    requires AllAnswered(env, prompt, raw)
  {
    if raw == [] then []
    else
      var k := |raw| - 1;
      Rejections(env, prompt, raw[..k])
      + (match Judge(env, prompt, raw[k])
         case Accept(_) => []
         case Reject(reason) => [Rejection(k, raw[k], reason)])
  }

  predicate FoundVerdict(v: Verdict) { v.Accept? || FoundReason(v.reason) }

  ghost function Found(env: Environment, prompt: seq<TokenId>, raw: seq<StorageCandidate>): set<nat>
    requires AllAnswered(env, prompt, raw)
  {
    set i: nat | i < |raw| && FoundVerdict(Judge(env, prompt, raw[i]))
  }

  datatype Error = TargetRangeOutOfBounds | SidecarLookupFailed | BindingInvariantFailed | AccountingInvariantFailed
  datatype Gathered =
    | Gathered(potentials: seq<Potential>, rejected: seq<Rejection>, found: set<nat>)
    | GatherFailed(error: Error)

  lemma PassNext(env: Environment, prompt: seq<TokenId>, raw: seq<StorageCandidate>, k: nat)
    requires k < |raw| && AllAnswered(env, prompt, raw[..k]) && Answered(env, prompt, raw[k])
    ensures AllAnswered(env, prompt, raw[..k + 1])
    ensures Potentials(env, prompt, raw[..k + 1])
         == Potentials(env, prompt, raw[..k])
            + (match Judge(env, prompt, raw[k]) case Accept(r) => [Potential(k, raw[k], r)] case Reject(_) => [])
    ensures Rejections(env, prompt, raw[..k + 1])
         == Rejections(env, prompt, raw[..k])
            + (match Judge(env, prompt, raw[k])
               case Accept(_) => []
               case Reject(reason) => [Rejection(k, raw[k], reason)])
    ensures Found(env, prompt, raw[..k + 1])
         == Found(env, prompt, raw[..k]) + (if FoundVerdict(Judge(env, prompt, raw[k])) then {k} else {})
  {
    AnsweredNext(env, prompt, raw, k);
    PotentialsNext(env, prompt, raw, k);
    RejectionsNext(env, prompt, raw, k);
    FoundIndexesNext(env, prompt, raw, k);
  }

  lemma AnsweredNext(env: Environment, prompt: seq<TokenId>, raw: seq<StorageCandidate>, k: nat)
    requires k < |raw| && AllAnswered(env, prompt, raw[..k]) && Answered(env, prompt, raw[k])
    ensures AllAnswered(env, prompt, raw[..k + 1])
  {
    var now := raw[..k + 1];
    forall i | 0 <= i < |now|
      ensures Answered(env, prompt, now[i])
    {
      if i < k {
        assert now[i] == raw[..k][i];
      }
    }
  }

  lemma PotentialsNext(env: Environment, prompt: seq<TokenId>, raw: seq<StorageCandidate>, k: nat)
    requires k < |raw| && AllAnswered(env, prompt, raw[..k]) && AllAnswered(env, prompt, raw[..k + 1])
      && Answered(env, prompt, raw[k])
    ensures Potentials(env, prompt, raw[..k + 1])
         == Potentials(env, prompt, raw[..k])
            + (match Judge(env, prompt, raw[k]) case Accept(r) => [Potential(k, raw[k], r)] case Reject(_) => [])
  {
    var now := raw[..k + 1];
    assert now[..k] == raw[..k] && now[k] == raw[k];
  }

  lemma RejectionsNext(env: Environment, prompt: seq<TokenId>, raw: seq<StorageCandidate>, k: nat)
    requires k < |raw| && AllAnswered(env, prompt, raw[..k]) && AllAnswered(env, prompt, raw[..k + 1])
      && Answered(env, prompt, raw[k])
    ensures Rejections(env, prompt, raw[..k + 1])
         == Rejections(env, prompt, raw[..k])
            + (match Judge(env, prompt, raw[k])
               case Accept(_) => []
               case Reject(reason) => [Rejection(k, raw[k], reason)])
  {
    var now := raw[..k + 1];
    assert now[..k] == raw[..k] && now[k] == raw[k];
  }

  lemma FoundIndexesNext(env: Environment, prompt: seq<TokenId>, raw: seq<StorageCandidate>, k: nat)
    requires k < |raw| && AllAnswered(env, prompt, raw[..k]) && AllAnswered(env, prompt, raw[..k + 1])
      && Answered(env, prompt, raw[k])
    ensures Found(env, prompt, raw[..k + 1])
         == Found(env, prompt, raw[..k]) + (if FoundVerdict(Judge(env, prompt, raw[k])) then {k} else {})
  {
    var now := raw[..k + 1];
    forall i: nat | i < k
      ensures now[i] == raw[..k][i]
    {
    }
  }

  /** Looks at the records bound to one candidate: the valid ones, and why the others failed. */
  method JudgeRecords(
      env: Environment, target: TokenSegment, f: SegmentFingerprint, c: StorageCandidate, bucket: seq<CacheRecord>)
      returns (v: Verdict)
    ensures v == JudgeBucket(env, target, f, c, bucket)
  {
    if bucket == [] {
      return Reject(NoSidecarRecord);
    }
    var bound := BoundRecords(c, bucket);
    if bound == [] {
      return Reject(CacheKeyMismatch);
    }
    var valid: seq<CacheRecord> := [];
    var reason := TokenMismatch;
    for i := 0 to |bound|
      invariant valid == Filter(r => Verifies(env, target, f, r), bound[..i])
      invariant valid == [] ==> forall r :: r in bound[..i] ==> !Verifies(env, target, f, r)
      invariant valid == [] && i > 0 ==> reason == FirstReason(env, target, f, bound[..i])
    {
      FilterAppend(r => Verifies(env, target, f, r), bound[..i], bound[i]);
      TakeNext(bound, i);
      assert bound[..i + 1][..i] == bound[..i];
      match VerifyRecord(env, target, f, bound[i]) {
        case None => valid := valid + [bound[i]];
        case Some(failed) =>
          if i == 0 || Priority(failed) < Priority(reason) {
            reason := failed;
          }
      }
    }
    TakeAll(bound);
    if valid == [] {
      return Reject(reason);
    }
    if exists i :: 0 <= i < |valid| && valid[i].sourceRange != valid[0].sourceRange {
      return Reject(SourcePositionAmbiguous);
    }
    return Accept(valid[0]);
  }

  /** The pass: fails on the first candidate outside the prompt or the first failed lookup. */
  method Gather(env: Environment, prompt: seq<TokenId>, raw: seq<StorageCandidate>) returns (g: Gathered)
    ensures g.Gathered? <==> AllAnswered(env, prompt, raw)
    ensures g.GatherFailed? ==> FailsFirst(env, prompt, raw, g.error)
    ensures g.Gathered? ==>
      && g.potentials == Potentials(env, prompt, raw)
      && g.rejected == Rejections(env, prompt, raw)
      && g.found == Found(env, prompt, raw)
  {
    var expected := env.digest(prompt);
    var bucketCache: map<SegmentFingerprint, seq<CacheRecord>> := map[];
    var potentials: seq<Potential>, rejected: seq<Rejection>, found: set<nat> := [], [], {};
    for k := 0 to |raw|
      invariant AllAnswered(env, prompt, raw[..k])
      invariant potentials == Potentials(env, prompt, raw[..k])
      invariant rejected == Rejections(env, prompt, raw[..k])
      invariant found == Found(env, prompt, raw[..k])
      invariant forall f :: f in bucketCache ==> env.lookup(env.namespace, f) == Some(bucketCache[f])
    {
      var c := raw[k];
      if c.target.end > |prompt| {
        assert FailsAt(env, prompt, raw, TargetRangeOutOfBounds, k);
        return GatherFailed(TargetRangeOutOfBounds);
      }
      var verdict := Reject(StaleQuery);
      if c.queryDigest == expected {
        var target := TargetSegment(prompt, c);
        var f := env.fingerprint(env.namespace, target.tokens);
        if f !in bucketCache {
          var response := env.lookup(env.namespace, f);
          if response.None? {
            assert FailsAt(env, prompt, raw, SidecarLookupFailed, k);
            return GatherFailed(SidecarLookupFailed);
          }
          bucketCache := bucketCache[f := response.value];
        }
        verdict := JudgeRecords(env, target, f, c, bucketCache[f]);
      }
      PassNext(env, prompt, raw, k);
      match verdict {
        case Reject(reason) =>
          rejected := rejected + [Rejection(k, c, reason)];
          if FoundReason(reason) {
            found := found + {k};
          }
        case Accept(record) =>
          found := found + {k};
          AcceptedIsProven(env, prompt, c);
          var target := TargetSegment(prompt, c);
          if !Binds(env, c, target, env.fingerprint(env.namespace, target.tokens), record) {
            return GatherFailed(BindingInvariantFailed);
          }
          potentials := potentials + [Potential(k, c, record)];
      }
    }
    TakeAll(raw);
    g := Gathered(potentials, rejected, found);
  }

  // ----- selection and accounting

  function CandidateKey(c: StorageCandidate): SortKey {
    [[c.target.start], [c.target.end], CodePoints(CacheKey(c)), [c.sourceRelative.start], [c.sourceRelative.end],
     CodePoints(c.storageModelName), c.queryDigest]
  }

  function PotentialItem(p: Potential): Item {
    Item(p.candidate.target.start, p.candidate.target.end,
         CandidateKey(p.candidate)[2..] + [[p.record.sourceRange.start], [p.record.sourceRange.end], [p.rawIndex]])
  }

  function PotentialItems(ps: seq<Potential>): (items: seq<Item>)
    ensures |items| == |ps| && NonEmptyItems(items)
  {
    seq(|ps|, i requires 0 <= i < |ps| => PotentialItem(ps[i]))
  }

  function VerifiedKey(p: Potential): SortKey {
    CandidateKey(p.candidate) + [[p.record.sourceRange.start], [p.record.sourceRange.end]]
  }

  predicate PotentialLe(a: Potential, b: Potential) { KeyLe(VerifiedKey(a), VerifiedKey(b)) }

  function PotentialStart(p: Potential): int { p.candidate.target.start }

  lemma PotentialOrder()
    ensures OrdersByStart(PotentialLe, PotentialStart)
  {
    KeyOrder();
    forall a: Potential, b: Potential
      ensures PotentialLe(a, b) || PotentialLe(b, a)
      ensures PotentialStart(a) < PotentialStart(b) ==> PotentialLe(a, b)
      ensures PotentialLe(a, b) ==> PotentialStart(a) <= PotentialStart(b)
    {
      assert VerifiedKey(a)[0] == [a.candidate.target.start] && VerifiedKey(b)[0] == [b.candidate.target.start];
      NumberText(a.candidate.target.start, b.candidate.target.start);
    }
    forall a: Potential, b: Potential, c: Potential | PotentialLe(a, b) && PotentialLe(b, c)
      ensures PotentialLe(a, c)
    {
      assert KeyLe(VerifiedKey(a), VerifiedKey(b)) && KeyLe(VerifiedKey(b), VerifiedKey(c));
    }
  }

  predicate RejectionLe(a: Rejection, b: Rejection) {
    KeyLe(CandidateKey(a.candidate) + [CodePoints(ReasonText(a.reason)), [a.rawIndex]],
          CandidateKey(b.candidate) + [CodePoints(ReasonText(b.reason)), [b.rawIndex]])
  }

  /** Why a potential candidate was not selected. */
  function LeftOut(selected: seq<Potential>, p: Potential): Rejection {
    Rejection(p.rawIndex, p.candidate,
              if exists i :: 0 <= i < |selected| && selected[i].candidate == p.candidate then DuplicateCandidate
              else OverlapsSelectedCandidate)
  }

  function LeftOuts(selected: seq<Potential>, ps: seq<Potential>): (rs: seq<Rejection>)
    ensures |rs| == |ps|
  {
    seq(|ps|, i requires 0 <= i < |ps| => LeftOut(selected, ps[i]))
  }

  datatype Counters = Counters(
    raw: nat, rawTokens: nat,
    found: nat, foundTokens: nat,
    verified: nat, verifiedTokens: nat,
    rejected: nat, rejectedTokens: nat)

  /** The checks the counters' constructor makes. */
  predicate Balanced(c: Counters) {
    && c.raw == c.verified + c.rejected
    && c.rawTokens == c.verifiedTokens + c.rejectedTokens
    && c.found <= c.raw && c.foundTokens <= c.rawTokens
    && c.verified <= c.found && c.verifiedTokens <= c.foundTokens
  }

  datatype LookupPlan = LookupPlan(verified: seq<Potential>, rejected: seq<Rejection>, counters: Counters)
  datatype LookupResult = Planned(plan: LookupPlan) | LookupFailed(error: Error)

  function TargetOf(c: StorageCandidate): TokenRange { c.target }
  function CandidateOf(p: Potential): StorageCandidate { p.candidate }
  function RejectedOf(r: Rejection): StorageCandidate { r.candidate }

  function RawRanges(raw: seq<StorageCandidate>): seq<TokenRange> { Map(TargetOf, raw) }
  function PotentialCandidates(ps: seq<Potential>): seq<StorageCandidate> { Map(CandidateOf, ps) }
  function RejectionCandidates(rs: seq<Rejection>): seq<StorageCandidate> { Map(RejectedOf, rs) }

  /** `plan` is the plan for `raw` when the selection picks `chosen` among the potentials. */
  ghost predicate LookupFor(
      env: Environment, prompt: seq<TokenId>, raw: seq<StorageCandidate>, chosen: seq<nat>, plan: LookupPlan)
    requires AllAnswered(env, prompt, raw)
  {
    var potentials := Potentials(env, prompt, raw);
    && IsBest(PotentialItems(potentials), chosen)
    && (forall i :: 0 <= i < |chosen| ==> chosen[i] < |potentials|)
    && plan.verified == Pick(potentials, chosen)
    && multiset(plan.rejected)
       == multiset(Rejections(env, prompt, raw))
          + multiset(LeftOuts(plan.verified, FilterIndexes(potentials, Unchosen(|potentials|, chosen))))
  }

  lemma SelectionListed(potentials: seq<Potential>, chosen: seq<nat>)
    requires IsChain(PotentialItems(potentials), chosen)
    ensures forall i :: 0 <= i < |chosen| ==> chosen[i] < |potentials|
    ensures SortBy(PotentialLe, FilterIndexes(potentials, ToSet(chosen))) == Pick(potentials, chosen)
    ensures Distinct(chosen)
  {
    SelectionApart(potentials, chosen);
    PotentialOrder();
    forall i, j | 0 <= i < j < |chosen|
      ensures PotentialStart(potentials[chosen[i]]) < PotentialStart(potentials[chosen[j]])
    {
    }
    SelectionSorted(PotentialLe, PotentialStart, potentials, chosen);
  }

  lemma SelectionApart(potentials: seq<Potential>, chosen: seq<nat>)
    requires IsChain(PotentialItems(potentials), chosen)
    ensures forall i :: 0 <= i < |chosen| ==> chosen[i] < |potentials|
    ensures forall i, j :: 0 <= i < j < |chosen| ==>
              potentials[chosen[i]].candidate.target.end <= potentials[chosen[j]].candidate.target.start
    ensures Distinct(chosen)
  {
    var items := PotentialItems(potentials);
    ChainFacts(items, chosen);
    forall i, j | 0 <= i < j < |chosen|
      ensures potentials[chosen[i]].candidate.target.end <= potentials[chosen[j]].candidate.target.start
    {
      assert items[chosen[i]] == PotentialItem(potentials[chosen[i]])
        && items[chosen[j]] == PotentialItem(potentials[chosen[j]]);
    }
  }

  /** The selected candidates lie left to right without overlap. */
  lemma VerifiedOrdered(potentials: seq<Potential>, chosen: seq<nat>)
    requires IsChain(PotentialItems(potentials), chosen)
    requires forall i :: 0 <= i < |chosen| ==> chosen[i] < |potentials|
    ensures Ordered(RawRanges(PotentialCandidates(Pick(potentials, chosen))))
  {
    SelectionApart(potentials, chosen);
    var ranges := RawRanges(PotentialCandidates(Pick(potentials, chosen)));
    forall i, j | 0 <= i < j < |ranges|
      ensures ranges[i].end <= ranges[j].start
    {
      PickedRange(potentials, chosen, i);
      PickedRange(potentials, chosen, j);
    }
    forall i | 0 <= i < |ranges|
      ensures ranges[i].start < ranges[i].end
    {
      PickedRange(potentials, chosen, i);
    }
  }

  lemma PickedRange(potentials: seq<Potential>, chosen: seq<nat>, i: nat)
    requires (forall i :: 0 <= i < |chosen| ==> chosen[i] < |potentials|) && i < |chosen|
    ensures RawRanges(PotentialCandidates(Pick(potentials, chosen)))[i] == potentials[chosen[i]].candidate.target
  {
    var p := potentials[chosen[i]];
    assert CandidateOf(p) == p.candidate && TargetOf(p.candidate) == p.candidate.target;
  }

  // Candidates are conserved from the raw list to potentials and rejections ...

  lemma {:induction false} PassConserves(env: Environment, prompt: seq<TokenId>, raw: seq<StorageCandidate>)
    requires AllAnswered(env, prompt, raw)
    ensures multiset(PotentialCandidates(Potentials(env, prompt, raw)))
      + multiset(RejectionCandidates(Rejections(env, prompt, raw)))
         == multiset(raw)
  {
    if raw != [] {
      var front := raw[..|raw| - 1];
      PassConserves(env, prompt, front);
      PassConservesOne(env, prompt, raw);
      LastInBag(raw);
    } else {
      assert Potentials(env, prompt, raw) == [] && Rejections(env, prompt, raw) == [];
    }
  }

  lemma PassConservesOne(env: Environment, prompt: seq<TokenId>, raw: seq<StorageCandidate>)
    requires AllAnswered(env, prompt, raw) && raw != []
    ensures var front := raw[..|raw| - 1];
      multiset(PotentialCandidates(Potentials(env, prompt, raw)))
        + multiset(RejectionCandidates(Rejections(env, prompt, raw)))
      == multiset(PotentialCandidates(Potentials(env, prompt, front)))
        + multiset(RejectionCandidates(Rejections(env, prompt, front)))
         + multiset{raw[|raw| - 1]}
  {
    var k := |raw| - 1;
    var ps, rs := Potentials(env, prompt, raw[..k]), Rejections(env, prompt, raw[..k]);
    match Judge(env, prompt, raw[k]) {
      case Accept(r) =>
        MapAppend(CandidateOf, ps, [Potential(k, raw[k], r)]);
        MapOne(CandidateOf, Potential(k, raw[k], r));
        assert Rejections(env, prompt, raw) == rs;
      case Reject(reason) =>
        MapAppend(RejectedOf, rs, [Rejection(k, raw[k], reason)]);
        MapOne(RejectedOf, Rejection(k, raw[k], reason));
        assert Potentials(env, prompt, raw) == ps;
    }
  }

  lemma SelectionConserves(potentials: seq<Potential>, chosen: seq<nat>)
    requires IsChain(PotentialItems(potentials), chosen)
    requires forall i :: 0 <= i < |chosen| ==> chosen[i] < |potentials|
    ensures var others := FilterIndexes(potentials, Unchosen(|potentials|, chosen));
      multiset(PotentialCandidates(Pick(potentials, chosen))) + multiset(PotentialCandidates(others))
      == multiset(PotentialCandidates(potentials))
  {
    SelectionListed(potentials, chosen);
    PickIsFilter(potentials, chosen);
    var picked, others := Pick(potentials, chosen), FilterIndexes(potentials, Unchosen(|potentials|, chosen));
    FilterIndexesPartition(potentials, ToSet(chosen), Unchosen(|potentials|, chosen));
    MapBag(CandidateOf, picked + others, potentials);
    MapAppend(CandidateOf, picked, others);
  }

  lemma LeftOutCandidates(selected: seq<Potential>, ps: seq<Potential>)
    ensures RejectionCandidates(LeftOuts(selected, ps)) == PotentialCandidates(ps)
  {
    var rs := LeftOuts(selected, ps);
    assert forall i :: 0 <= i < |ps| ==> RejectedOf(rs[i]) == CandidateOf(ps[i]);
  }

  /** ... so each raw candidate ends up verified or rejected, and in exactly one of the two. */
  lemma EveryRawAccounted(
      env: Environment, prompt: seq<TokenId>, raw: seq<StorageCandidate>, chosen: seq<nat>, plan: LookupPlan)
    requires AllAnswered(env, prompt, raw) && LookupFor(env, prompt, raw, chosen, plan)
    ensures multiset(PotentialCandidates(plan.verified)) + multiset(RejectionCandidates(plan.rejected)) == multiset(raw)
  {
    var potentials, rejections := Potentials(env, prompt, raw), Rejections(env, prompt, raw);
    var others := FilterIndexes(potentials, Unchosen(|potentials|, chosen));
    var left := LeftOuts(plan.verified, others);
    SelectionConserves(potentials, chosen);
    MapBag(RejectedOf, plan.rejected, rejections + left);
    MapAppend(RejectedOf, rejections, left);
    LeftOutCandidates(plan.verified, others);
    PassConserves(env, prompt, raw);
  }

  // ----- counting

  ghost function FoundRanges(env: Environment, prompt: seq<TokenId>, raw: seq<StorageCandidate>): seq<TokenRange>
    requires AllAnswered(env, prompt, raw)
  {
    FilterIndexes(RawRanges(raw), Found(env, prompt, raw))
  }

  lemma {:induction false} FilterIndexesPrefix<T>(s: seq<T>, chosen: set<nat>, n: nat)
    requires n >= |s|
    ensures FilterIndexes(s, chosen) == FilterIndexes(s, chosen + {n})
  {
    if s != [] {
      FilterIndexesPrefix(s[..|s| - 1], chosen, n);
    }
  }

  lemma FoundNext(env: Environment, prompt: seq<TokenId>, raw: seq<StorageCandidate>)
    requires AllAnswered(env, prompt, raw) && raw != []
    ensures var k := |raw| - 1;
      && AllAnswered(env, prompt, raw[..k])
      && FoundRanges(env, prompt, raw)
         == FoundRanges(env, prompt, raw[..k])
           + (if FoundVerdict(Judge(env, prompt, raw[k])) then [raw[k].target] else [])
  {
    var k := |raw| - 1;
    TakeAll(raw);
    PassNext(env, prompt, raw, k);
    var ranges, before := RawRanges(raw), Found(env, prompt, raw[..k]);
    assert ranges[..k] == RawRanges(raw[..k]);
    FilterIndexesPrefix(ranges[..k], before, k);
    assert k !in before && TargetOf(raw[k]) == raw[k].target;
    if FoundVerdict(Judge(env, prompt, raw[k])) {
      assert Found(env, prompt, raw) == before + {k};
    } else {
      assert Found(env, prompt, raw) == before;
    }
  }

  /** Every potential candidate is a found one. */
  lemma {:induction false} PotentialsWithinFound(env: Environment, prompt: seq<TokenId>, raw: seq<StorageCandidate>)
    requires AllAnswered(env, prompt, raw)
    ensures multiset(RawRanges(PotentialCandidates(Potentials(env, prompt, raw))))
      <= multiset(FoundRanges(env, prompt, raw))
  {
    if raw == [] {
      assert Potentials(env, prompt, raw) == [];
      assert RawRanges(PotentialCandidates([])) == [];
    } else {
      PotentialsWithinFound(env, prompt, raw[..|raw| - 1]);
      FoundNext(env, prompt, raw);
      PotentialRangesNext(env, prompt, raw);
    }
  }

  lemma PotentialRangesNext(env: Environment, prompt: seq<TokenId>, raw: seq<StorageCandidate>)
    requires AllAnswered(env, prompt, raw) && raw != []
    ensures var k := |raw| - 1;
      RawRanges(PotentialCandidates(Potentials(env, prompt, raw)))
      == RawRanges(PotentialCandidates(Potentials(env, prompt, raw[..k])))
        + (if Judge(env, prompt, raw[k]).Accept? then [raw[k].target] else [])
  {
    var k := |raw| - 1;
    var ps := Potentials(env, prompt, raw[..k]);
    match Judge(env, prompt, raw[k]) {
      case Accept(r) =>
        var p := Potential(k, raw[k], r);
        MapAppend(CandidateOf, ps, [p]);
        MapOne(CandidateOf, p);
        MapAppend(TargetOf, PotentialCandidates(ps), [raw[k]]);
        MapOne(TargetOf, raw[k]);
      case Reject(_) =>
        assert Potentials(env, prompt, raw) == ps;
    }
  }

  lemma {:induction false} FilterIndexesSub<T>(s: seq<T>, chosen: set<nat>)
    ensures multiset(FilterIndexes(s, chosen)) <= multiset(s)
    ensures |FilterIndexes(s, chosen)| <= |s|
  {
    if s != [] {
      FilterIndexesSub(s[..|s| - 1], chosen);
      LastInBag(s);
    }
  }

  lemma BagSize<T>(a: seq<T>, b: seq<T>)
    requires multiset(a) <= multiset(b)
    ensures |a| <= |b|
  {
    assert |multiset(b)| == |multiset(a)| + |multiset(b) - multiset(a)|;
    assert |a| == |multiset(a)| && |b| == |multiset(b)|;
  }

  function CountersFor(
      raw: seq<StorageCandidate>, foundRanges: seq<TokenRange>, verified: seq<Potential>,
      rejected: seq<Rejection>): Counters
  {
    Counters(|raw|, TokenSum(RawRanges(raw)),
             |foundRanges|, TokenSum(foundRanges),
             |verified|, TokenSum(RawRanges(PotentialCandidates(verified))),
             |rejected|, TokenSum(RawRanges(RejectionCandidates(rejected))))
  }

  /** The accounting checks cannot fail. */
  lemma CountersBalance(
      env: Environment, prompt: seq<TokenId>, raw: seq<StorageCandidate>, chosen: seq<nat>, plan: LookupPlan)
    requires AllAnswered(env, prompt, raw) && LookupFor(env, prompt, raw, chosen, plan)
    ensures Balanced(CountersFor(raw, FoundRanges(env, prompt, raw), plan.verified, plan.rejected))
  {
    var potentials := Potentials(env, prompt, raw);
    var verifiedRanges := RawRanges(PotentialCandidates(plan.verified));
    var rejectedRanges := RawRanges(RejectionCandidates(plan.rejected));
    var found := FoundRanges(env, prompt, raw);
    EveryRawAccounted(env, prompt, raw, chosen, plan);
    RangesAccounted(raw, plan);
    FilterIndexesSub(RawRanges(raw), Found(env, prompt, raw));
    TokenSumBag(found, RawRanges(raw));
    VerifiedWithinFound(env, prompt, raw, chosen, plan);
    TokenSumBag(verifiedRanges, found);
    BagSize(verifiedRanges, found);
  }

  lemma RangesAccounted(raw: seq<StorageCandidate>, plan: LookupPlan)
    requires multiset(PotentialCandidates(plan.verified)) + multiset(RejectionCandidates(plan.rejected))
      == multiset(raw)
    ensures |raw| == |plan.verified| + |plan.rejected|
    ensures TokenSum(RawRanges(raw))
         == TokenSum(RawRanges(PotentialCandidates(plan.verified)))
           + TokenSum(RawRanges(RejectionCandidates(plan.rejected)))
  {
    var both := PotentialCandidates(plan.verified) + RejectionCandidates(plan.rejected);
    assert multiset(both) == multiset(raw);
    assert |both| == |multiset(both)| == |multiset(raw)| == |raw|;
    MapBag(TargetOf, both, raw);
    MapAppend(TargetOf, PotentialCandidates(plan.verified), RejectionCandidates(plan.rejected));
    TokenSumBag(RawRanges(both), RawRanges(raw));
    TokenSumAppend(RawRanges(PotentialCandidates(plan.verified)), RawRanges(RejectionCandidates(plan.rejected)));
  }

  lemma VerifiedWithinFound(
      env: Environment, prompt: seq<TokenId>, raw: seq<StorageCandidate>, chosen: seq<nat>, plan: LookupPlan)
    requires AllAnswered(env, prompt, raw) && LookupFor(env, prompt, raw, chosen, plan)
    ensures multiset(RawRanges(PotentialCandidates(plan.verified))) <= multiset(FoundRanges(env, prompt, raw))
  {
    var potentials := Potentials(env, prompt, raw);
    var others := FilterIndexes(potentials, Unchosen(|potentials|, chosen));
    SelectionConserves(potentials, chosen);
    var a, b := PotentialCandidates(plan.verified), PotentialCandidates(others);
    assert multiset(a + b) == multiset(PotentialCandidates(potentials));
    MapBag(TargetOf, a + b, PotentialCandidates(potentials));
    MapAppend(TargetOf, a, b);
    PotentialsWithinFound(env, prompt, raw);
  }

  // ----- unique coverage of the found candidates

  function FoundTargets(plan: LookupPlan): seq<TokenRange> {
    RawRanges(PotentialCandidates(plan.verified))
    + RawRanges(RejectionCandidates(Filter((r: Rejection) => FoundReason(r.reason), plan.rejected)))
  }

  method FoundTargetTokenCount(plan: LookupPlan) returns (n: nat)
    ensures n == |Union(FoundTargets(plan))|
  {
    n := CoveredTokenCount(FoundTargets(plan));
  }

  /** `r` is what the pass said about raw candidate `i`. */
  ghost predicate SaidOf(
      env: Environment, prompt: seq<TokenId>, raw: seq<StorageCandidate>, i: nat, v: Verdict, c: StorageCandidate)
    requires AllAnswered(env, prompt, raw)
  {
    i < |raw| && raw[i] == c && Judge(env, prompt, raw[i]) == v
  }

  lemma {:induction false} PotentialSaid(
      env: Environment, prompt: seq<TokenId>, raw: seq<StorageCandidate>, p: Potential)
    requires AllAnswered(env, prompt, raw)
    ensures p in Potentials(env, prompt, raw) <==> SaidOf(env, prompt, raw, p.rawIndex, Accept(p.record), p.candidate)
  {
    if raw != [] {
      PotentialSaid(env, prompt, raw[..|raw| - 1], p);
    }
  }

  lemma {:induction false} RejectionSaid(
      env: Environment, prompt: seq<TokenId>, raw: seq<StorageCandidate>, r: Rejection)
    requires AllAnswered(env, prompt, raw)
    ensures r in Rejections(env, prompt, raw) <==> SaidOf(env, prompt, raw, r.rawIndex, Reject(r.reason), r.candidate)
  {
    if raw != [] {
      RejectionSaid(env, prompt, raw[..|raw| - 1], r);
    }
  }

  lemma FoundRangeMember(env: Environment, prompt: seq<TokenId>, raw: seq<StorageCandidate>, i: nat)
    requires AllAnswered(env, prompt, raw) && i < |raw| && FoundVerdict(Judge(env, prompt, raw[i]))
    ensures raw[i].target in FoundRanges(env, prompt, raw)
  {
    assert TargetOf(raw[i]) == raw[i].target;
    FilterIndexesHas(RawRanges(raw), Found(env, prompt, raw), i);
  }

  lemma {:induction false} FilterIndexesHas<T>(s: seq<T>, chosen: set<nat>, i: nat)
    requires i < |s| && i in chosen
    ensures s[i] in FilterIndexes(s, chosen)
  {
    if i < |s| - 1 {
      FilterIndexesHas(s[..|s| - 1], chosen, i);
    }
  }

  lemma RangeOfMember(cs: seq<StorageCandidate>, c: StorageCandidate)
    requires c in cs
    ensures c.target in RawRanges(cs)
  {
    var i :| 0 <= i < |cs| && cs[i] == c;
    assert RawRanges(cs)[i] == TargetOf(c);
  }

  lemma BagMember<T>(a: seq<T>, b: multiset<T>, x: T)
    requires multiset(a) == b
    ensures x in a <==> x in b
  {
    assert x in a <==> x in multiset(a);
  }

  lemma LeftOutIsListed(
      env: Environment, prompt: seq<TokenId>, raw: seq<StorageCandidate>, chosen: seq<nat>, plan: LookupPlan, k: nat)
    requires AllAnswered(env, prompt, raw) && LookupFor(env, prompt, raw, chosen, plan)
    requires k < |Potentials(env, prompt, raw)| && k !in chosen
    ensures Potentials(env, prompt, raw)[k].candidate.target in FoundTargets(plan)
  {
    var potentials := Potentials(env, prompt, raw);
    var others := FilterIndexes(potentials, Unchosen(|potentials|, chosen));
    FilterIndexesHas(potentials, Unchosen(|potentials|, chosen), k);
    var l :| 0 <= l < |others| && others[l] == potentials[k];
    var r := LeftOut(plan.verified, potentials[k]);
    assert LeftOuts(plan.verified, others)[l] == r;
    ListedRejection(plan, r, multiset(Rejections(env, prompt, raw)) + multiset(LeftOuts(plan.verified, others)));
  }

  /** An accepted candidate shows up among the verified, or among the overlap rejections. */
  lemma AcceptedIsListed(
      env: Environment, prompt: seq<TokenId>, raw: seq<StorageCandidate>, chosen: seq<nat>, plan: LookupPlan,
      p: Potential)
    requires AllAnswered(env, prompt, raw) && LookupFor(env, prompt, raw, chosen, plan)
    requires p in Potentials(env, prompt, raw)
    ensures p.candidate.target in FoundTargets(plan)
  {
    var potentials := Potentials(env, prompt, raw);
    var k: nat :| k < |potentials| && potentials[k] == p;
    if j :| 0 <= j < |chosen| && chosen[j] == k {
      PickedRange(potentials, chosen, j);
      assert p.candidate.target in RawRanges(PotentialCandidates(plan.verified));
    } else {
      LeftOutIsListed(env, prompt, raw, chosen, plan, k);
    }
  }

  /** A found candidate shows up among the verified, or among the found rejections. */
  lemma FoundIsListed(
      env: Environment, prompt: seq<TokenId>, raw: seq<StorageCandidate>, chosen: seq<nat>, plan: LookupPlan, i: nat)
    requires AllAnswered(env, prompt, raw) && LookupFor(env, prompt, raw, chosen, plan)
    requires i < |raw| && FoundVerdict(Judge(env, prompt, raw[i]))
    ensures raw[i].target in FoundTargets(plan)
  {
    match Judge(env, prompt, raw[i]) {
      case Accept(record) =>
        var p := Potential(i, raw[i], record);
        PotentialSaid(env, prompt, raw, p);
        AcceptedIsListed(env, prompt, raw, chosen, plan, p);
      case Reject(reason) =>
        var r := Rejection(i, raw[i], reason);
        RejectionSaid(env, prompt, raw, r);
        var potentials := Potentials(env, prompt, raw);
        var others := FilterIndexes(potentials, Unchosen(|potentials|, chosen));
        ListedRejection(plan, r, multiset(Rejections(env, prompt, raw)) + multiset(LeftOuts(plan.verified, others)));
    }
  }

  lemma ListedRejection(plan: LookupPlan, r: Rejection, bag: multiset<Rejection>)
    requires multiset(plan.rejected) == bag && r in bag && FoundReason(r.reason)
    ensures r.candidate.target in FoundTargets(plan)
  {
    BagMember(plan.rejected, bag, r);
    var keep := (r: Rejection) => FoundReason(r.reason);
    FilterMembers(keep, plan.rejected, r);
    var kept := Filter(keep, plan.rejected);
    var i :| 0 <= i < |kept| && kept[i] == r;
    assert RejectionCandidates(kept)[i] == RejectedOf(r);
    RangeOfMember(RejectionCandidates(kept), r.candidate);
  }

  /** A verified range was found. */
  lemma VerifiedIsFound(
      env: Environment, prompt: seq<TokenId>, raw: seq<StorageCandidate>, chosen: seq<nat>, plan: LookupPlan, j: nat)
    requires AllAnswered(env, prompt, raw) && LookupFor(env, prompt, raw, chosen, plan)
    requires j < |RawRanges(PotentialCandidates(plan.verified))|
    ensures RawRanges(PotentialCandidates(plan.verified))[j] in FoundRanges(env, prompt, raw)
  {
    var potentials := Potentials(env, prompt, raw);
    PickedRange(potentials, chosen, j);
    PotentialSaid(env, prompt, raw, potentials[chosen[j]]);
    FoundRangeMember(env, prompt, raw, potentials[chosen[j]].rawIndex);
  }

  /** A range reported among the found rejections comes from one of them. */
  lemma KeptRejection(rejected: seq<Rejection>, range: TokenRange) returns (r: Rejection)
    requires range in RawRanges(RejectionCandidates(Filter((r: Rejection) => FoundReason(r.reason), rejected)))
    ensures r in rejected && FoundReason(r.reason) && r.candidate.target == range
  {
    var keep := (r: Rejection) => FoundReason(r.reason);
    var kept := Filter(keep, rejected);
    var j :| 0 <= j < |kept| && RawRanges(RejectionCandidates(kept))[j] == range;
    r := kept[j];
    assert range == TargetOf(RejectedOf(r));
    FilterMembers(keep, rejected, r);
  }

  /** Everything listed as found was found. */
  lemma ListedIsFound(
      env: Environment, prompt: seq<TokenId>, raw: seq<StorageCandidate>, chosen: seq<nat>, plan: LookupPlan,
      range: TokenRange)
    requires AllAnswered(env, prompt, raw) && LookupFor(env, prompt, raw, chosen, plan)
    requires range in FoundTargets(plan)
    ensures range in FoundRanges(env, prompt, raw)
  {
    var verifiedRanges := RawRanges(PotentialCandidates(plan.verified));
    if range in verifiedRanges {
      var j :| 0 <= j < |verifiedRanges| && verifiedRanges[j] == range;
      VerifiedIsFound(env, prompt, raw, chosen, plan, j);
    } else {
      var r := KeptRejection(plan.rejected, range);
      RejectionFound(env, prompt, raw, chosen, plan, r);
    }
  }

  lemma RejectionFound(
      env: Environment, prompt: seq<TokenId>, raw: seq<StorageCandidate>, chosen: seq<nat>, plan: LookupPlan,
      r: Rejection)
    requires AllAnswered(env, prompt, raw) && LookupFor(env, prompt, raw, chosen, plan)
    requires r in plan.rejected && FoundReason(r.reason)
    ensures r.candidate.target in FoundRanges(env, prompt, raw)
  {
    var potentials := Potentials(env, prompt, raw);
    var others := FilterIndexes(potentials, Unchosen(|potentials|, chosen));
    var left := LeftOuts(plan.verified, others);
    BagMember(plan.rejected, multiset(Rejections(env, prompt, raw)) + multiset(left), r);
    if r in Rejections(env, prompt, raw) {
      RejectionSaid(env, prompt, raw, r);
      FoundRangeMember(env, prompt, raw, r.rawIndex);
    } else {
      assert r in multiset(left);
      var l :| 0 <= l < |left| && left[l] == r;
      var k := FilterIndexesMember(potentials, Unchosen(|potentials|, chosen), others[l]);
      PotentialSaid(env, prompt, raw, potentials[k]);
      FoundRangeMember(env, prompt, raw, r.rawIndex);
    }
  }

  /** The reported unique coverage is the size of the union of all found ranges. */
  lemma FoundCoverage(
      env: Environment, prompt: seq<TokenId>, raw: seq<StorageCandidate>, chosen: seq<nat>, plan: LookupPlan)
    requires AllAnswered(env, prompt, raw) && LookupFor(env, prompt, raw, chosen, plan)
    ensures Union(FoundTargets(plan)) == Union(FoundRanges(env, prompt, raw))
  {
    forall range | range in FoundTargets(plan)
      ensures range in FoundRanges(env, prompt, raw)
    {
      ListedIsFound(env, prompt, raw, chosen, plan, range);
    }
    forall range | range in FoundRanges(env, prompt, raw)
      ensures range in FoundTargets(plan)
    {
      var i := FilterIndexesMember(RawRanges(raw), Found(env, prompt, raw), range);
      assert range == TargetOf(raw[i]);
      FoundIsListed(env, prompt, raw, chosen, plan, i);
    }
    UnionOfSame(FoundTargets(plan), FoundRanges(env, prompt, raw));
    UnionOfSame(FoundRanges(env, prompt, raw), FoundTargets(plan));
  }

  // ----- the coordinator

  method PlanLookup(env: Environment, prompt: seq<TokenId>, raw: seq<StorageCandidate>) returns (r: LookupResult)
    ensures r.Planned? <==> AllAnswered(env, prompt, raw)
    ensures r.LookupFailed? ==> FailsFirst(env, prompt, raw, r.error)
    ensures r.Planned? ==>
      && (exists chosen: seq<nat> :: LookupFor(env, prompt, raw, chosen, r.plan))
      && SortedBy(RejectionLe, r.plan.rejected)
      && r.plan.counters == CountersFor(raw, FoundRanges(env, prompt, raw), r.plan.verified, r.plan.rejected)
      && Balanced(r.plan.counters)
  {
    var g := Gather(env, prompt, raw);
    if g.GatherFailed? {
      return LookupFailed(g.error);
    }
    var potentials := g.potentials;
    var chosen := SelectNonOverlapping(PotentialItems(potentials));
    SelectionListed(potentials, chosen);
    var selected := SortBy(PotentialLe, FilterIndexes(potentials, ToSet(chosen)));
    var left := LeftOuts(selected, FilterIndexes(potentials, Unchosen(|potentials|, chosen)));
    var rejected := SortRejections(g.rejected + left);
    var foundRanges := FilterIndexes(RawRanges(raw), g.found);
    var counters := CountersFor(raw, foundRanges, selected, rejected);
    var plan := LookupPlan(selected, rejected, counters);
    assert LookupFor(env, prompt, raw, chosen, plan);
    CountersBalance(env, prompt, raw, chosen, plan);
    if !Balanced(counters) {
      return LookupFailed(AccountingInvariantFailed);
    }
    r := Planned(plan);
  }

  method SortRejections(rs: seq<Rejection>) returns (sorted: seq<Rejection>)
    ensures multiset(sorted) == multiset(rs) && SortedBy(RejectionLe, sorted)
  {
    KeyOrder();
    forall a: Rejection, b: Rejection, c: Rejection | RejectionLe(a, b) && RejectionLe(b, c)
      ensures RejectionLe(a, c)
    {
    }
    assert TotalPreorder(RejectionLe);
    SortSorted(RejectionLe, rs);
    SortMultiset(RejectionLe, rs);
    sorted := SortBy(RejectionLe, rs);
  }
}
