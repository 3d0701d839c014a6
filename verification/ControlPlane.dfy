/** Request lifecycle: one request's immutable states and the transitions between them, and
    the owner that keeps one state per request on the scheduler or on the worker. */
module ControlPlane {
  import opened Order
  import opened Ranges
  import opened Models
  import opened Planner
  import opened RequestPlans

  datatype Phase = LookedUp | Allocated | HandedOff | WorkerValidated | Finished

  datatype ErrorCode =
    | UnknownRequest
    | DuplicateRequestConflict
    | LifecycleMisuse
    | BadRequestPlan
    | GroupCountMismatch
    | GroupLayoutMismatch
    | InvalidBlockId
    | NonzeroExternalTokens
    | MetadataSchemaMismatch
    | StaleAllocation
    | InvalidWorkerResult

  datatype Result<+T> = Ok(value: T) | Err(error: ErrorCode) {
    predicate IsFailure() { Err? }
    function PropagateFailure<U>(): Result<U>
      requires Err?
    {
      Err(error)
    }
    function Extract(): T
      requires Ok?
    {
      value
    }
  }

  const METADATA_SCHEMA_VERSION := 1
  const FULL_RECOMPUTE_EXTERNAL_TOKENS := 0

  /** Layer names of every hybrid cache group, in group order. */
  type Layout = seq<seq<string>>

  datatype GroupSnapshot = GroupSnapshot(groupIndex: nat, layerNames: seq<string>, blockIds: seq<int>)
  datatype GroupedBlocks = GroupedBlocks(layout: Layout, groups: seq<GroupSnapshot>)

  datatype Allocation = Allocation(requestId: string, generation: nat, blocks: GroupedBlocks, externalTokens: int)
  datatype Handoff = Handoff(schemaVersion: int, plan: RequestPlan, allocation: Allocation)
  datatype Receipt = Receipt(requestId: string, allocation: Allocation, loaded: seq<int>, rejected: seq<int>)

  datatype State = State(
    plan: RequestPlan,
    phase: Phase,
    generation: nat,
    allocation: Option<Allocation>,
    handoff: Option<Handoff>,
    validation: Option<Receipt>,
    preemptions: nat)

  // ----- block tables

  predicate BlockIdsOk(ids: seq<int>) {
    (forall i :: 0 <= i < |ids| ==> ids[i] >= 0) && |ToSet(ids)| == |ids|
  }

  /** Copies the grouped block tables, in logical order, after checking every id. */
  function Capture(layout: Layout, ids: seq<seq<int>>): Result<GroupedBlocks> {
    if |ids| != |layout| then Err(GroupCountMismatch)
    else if exists g :: 0 <= g < |ids| && !BlockIdsOk(ids[g]) then Err(InvalidBlockId)
    else Ok(GroupedBlocks(layout, seq(|ids|, g requires 0 <= g < |ids| => GroupSnapshot(g, layout[g], ids[g]))))
  }

  // ----- worker receipts

  function NormalizeIndexes(indexes: seq<int>): Result<seq<int>> {
    if exists i :: 0 <= i < |indexes| && indexes[i] < 0 then Err(InvalidWorkerResult)
    else if |ToSet(indexes)| != |indexes| then Err(InvalidWorkerResult)
    else Ok(SortBy(IntLe, indexes))
  }

  function MakeReceipt(
      requestId: string, allocation: Allocation, loaded: seq<int>, rejected: seq<int>): Result<Receipt>
  {
    if requestId != allocation.requestId then Err(InvalidWorkerResult)
    else
      var l :- NormalizeIndexes(loaded);
      var r :- NormalizeIndexes(rejected);
      if !(ToSet(l) !! ToSet(r)) then Err(InvalidWorkerResult)
      else Ok(Receipt(requestId, allocation, l, r))
  }

  // ----- the checks made whenever a state is built

  function CheckState(s: State): Option<ErrorCode> {
    if s.phase == LookedUp then
      if s.allocation.Some? || s.handoff.Some? || s.validation.Some? then Some(LifecycleMisuse) else None
    else if s.allocation.None? then Some(LifecycleMisuse)
    else if s.allocation.value.requestId != s.plan.requestId then Some(BadRequestPlan)
    else if s.allocation.value.generation != s.generation then Some(StaleAllocation)
    else if s.phase == Allocated then
      if s.handoff.Some? || s.validation.Some? then Some(LifecycleMisuse) else None
    else if s.handoff.None? then Some(LifecycleMisuse)
    else if s.handoff.value.plan != s.plan || s.handoff.value.allocation != s.allocation.value
      then Some(StaleAllocation)
    else if s.phase == HandedOff then
      if s.validation.Some? then Some(LifecycleMisuse) else None
    else if s.validation.None? then Some(LifecycleMisuse)
    else if s.validation.value.allocation != s.allocation.value then Some(StaleAllocation)
    else None
  }

  function Make(s: State): Result<State> {
    match CheckState(s)
    case None => Ok(s)
    case Some(e) => Err(e)
  }

  // ----- transitions

  function Initial(plan: RequestPlan): State { State(plan, LookedUp, 0, None, None, None, 0) }

  function FromHandoff(m: Handoff, layout: Layout): Result<State> {
    if m.schemaVersion != METADATA_SCHEMA_VERSION then Err(MetadataSchemaMismatch)
    else if m.allocation.blocks.layout != layout then Err(GroupLayoutMismatch)
    else Make(State(m.plan, HandedOff, m.allocation.generation, Some(m.allocation), Some(m), None, 0))
  }

  function Allocate(s: State, layout: Layout, ids: seq<seq<int>>, externalTokens: int): Result<State> {
    if externalTokens != FULL_RECOMPUTE_EXTERNAL_TOKENS then Err(NonzeroExternalTokens)
    else
      var blocks :- Capture(layout, ids);
      var candidate := Allocation(s.plan.requestId, s.generation, blocks, externalTokens);
      if s.phase == LookedUp then Make(s.(phase := Allocated, allocation := Some(candidate)))
      else if s.allocation == Some(candidate) then Ok(s)
      else if s.phase == Finished then Err(LifecycleMisuse)
      else Err(DuplicateRequestConflict)
  }

  function HandOff(s: State): Result<State> {
    if s.phase in {HandedOff, WorkerValidated, Finished} then
      if s.handoff.None? then Err(LifecycleMisuse) else Ok(s)
    else if s.phase != Allocated || s.allocation.None? then Err(LifecycleMisuse)
    else
      Make(s.(phase := HandedOff, handoff := Some(Handoff(METADATA_SCHEMA_VERSION, s.plan, s.allocation.value))))
  }

  function MatchIndexes(n: nat): set<int> { set i: int | 0 <= i < n && InBounds(0, n, i) }

  function ApplyValidation(s: State, r: Receipt): Result<State> {
    if r.requestId != s.plan.requestId then Err(DuplicateRequestConflict)
    else if r.allocation.generation != s.generation then Err(StaleAllocation)
    else if Some(r.allocation) != s.allocation then Err(StaleAllocation)
    else if ToSet(r.loaded) + ToSet(r.rejected) != MatchIndexes(|s.plan.matchPlan.matches|)
      then Err(InvalidWorkerResult)
    else if s.phase == HandedOff then Make(s.(phase := WorkerValidated, validation := Some(r)))
    else if s.phase in {WorkerValidated, Finished} then
      if s.validation == Some(r) then Ok(s) else Err(DuplicateRequestConflict)
    else Err(LifecycleMisuse)
  }

  function Preempt(s: State): Result<State> {
    if s.phase == Finished then Err(LifecycleMisuse)
    else if s.phase == LookedUp then Ok(s)
    else Make(State(s.plan, LookedUp, s.generation + 1, None, None, None, s.preemptions + 1))
  }

  function Finish(s: State): Result<State> {
    if s.phase == Finished then Ok(s)
    else if s.phase != WorkerValidated then Err(LifecycleMisuse)
    else Make(s.(phase := Finished))
  }

  // ----- what every reachable state satisfies

  /** The receipt disposes of every planned match exactly once. */
  ghost predicate Partitions(r: Receipt, n: nat) {
    && SortedBy(IntLe, r.loaded) && Distinct(r.loaded)
    && SortedBy(IntLe, r.rejected) && Distinct(r.rejected)
    && ToSet(r.loaded) !! ToSet(r.rejected)
    && ToSet(r.loaded) + ToSet(r.rejected) == MatchIndexes(n)
  }

  ghost predicate WellFormedReceipt(r: Receipt) {
    && r.requestId == r.allocation.requestId
    && SortedBy(IntLe, r.loaded) && Distinct(r.loaded)
    && SortedBy(IntLe, r.rejected) && Distinct(r.rejected)
    && ToSet(r.loaded) !! ToSet(r.rejected)
  }

  /** The state's own checks hold and its receipt, if any, disposes of every match. */
  ghost predicate Coherent(s: State) {
    && CheckState(s).None?
    && (s.validation.Some? ==>
          && s.validation.value.requestId == s.plan.requestId
          && Partitions(s.validation.value, |s.plan.matchPlan.matches|))
  }

  ghost predicate Reachable(s: State) { ValidPlan(s.plan) && Coherent(s) }

  lemma ReceiptWellFormed(requestId: string, allocation: Allocation, loaded: seq<int>, rejected: seq<int>)
    ensures var r := MakeReceipt(requestId, allocation, loaded, rejected);
      r.Ok? ==> WellFormedReceipt(r.value) && r.value.requestId == requestId && r.value.allocation == allocation
  {
    NormalizedIndexes(loaded);
    NormalizedIndexes(rejected);
  }

  lemma NormalizedIndexes(indexes: seq<int>)
    ensures var r := NormalizeIndexes(indexes);
      r.Ok? ==> SortedBy(IntLe, r.value) && Distinct(r.value) && ToSet(r.value) == ToSet(indexes)
  {
    if NormalizeIndexes(indexes).Ok? {
      SetSizeDistinct(indexes);
      SortSorted(IntLe, indexes);
      SortElements(IntLe, indexes);
      SortMultiset(IntLe, indexes);
      DistinctPermutation(indexes, SortBy(IntLe, indexes));
    }
  }

  /** What a transition leaves alone. */
  ghost predicate Continues(s: State, t: State) {
    t.plan == s.plan && Coherent(t)
  }

  /** Later in the same lifetime: the generation has not gone down, and within one generation
      an allocation and a validation, once there, are kept. */
  ghost predicate Later(s: State, t: State) {
    && s.generation <= t.generation
    && (s.generation == t.generation ==>
          && (s.allocation.Some? ==> t.allocation == s.allocation)
          && (s.validation.Some? ==> t.validation == s.validation))
  }

  /** From a coherent state no transition trips a state check of its own: each fails exactly
      when its guard says so, and the state it returns is coherent. */
  lemma AllocateCoherent(s: State, layout: Layout, ids: seq<seq<int>>, externalTokens: int)
    requires Coherent(s)
    ensures var t := Allocate(s, layout, ids, externalTokens);
      && (t.Ok? ==> Continues(s, t.value) && Later(s, t.value) && t.value.validation == s.validation)
      && (t.Ok? && s.phase != LookedUp ==> t.value == s)
      && (s.phase == LookedUp ==> (t.Ok? <==> externalTokens == 0 && Capture(layout, ids).Ok?))
  {
  }

  lemma HandOffCoherent(s: State)
    requires Coherent(s)
    ensures var t := HandOff(s);
      && (t.Ok? <==> s.phase != LookedUp)
      && (t.Ok? ==>
            && Continues(s, t.value) && Later(s, t.value) && t.value.generation == s.generation
            && t.value.validation == s.validation && t.value.allocation == s.allocation
            && t.value.handoff.Some? && t.value.handoff.value.plan == s.plan
            && s.allocation == Some(t.value.handoff.value.allocation))
  {
  }

  lemma ApplyCoherent(s: State, r: Receipt)
    requires Coherent(s) && WellFormedReceipt(r)
    ensures var t := ApplyValidation(s, r);
      t.Ok? ==>
        && Continues(s, t.value) && Later(s, t.value)
        && t.value.validation == Some(r)
        && t.value.generation == s.generation == r.allocation.generation
        && t.value.allocation == s.allocation == Some(r.allocation)
        && (s.validation.Some? ==> s.validation == Some(r))
  {
  }

  lemma PreemptCoherent(s: State)
    requires Coherent(s)
    ensures var t := Preempt(s);
      && (t.Ok? <==> s.phase != Finished)
      && (t.Ok? ==>
            && Continues(s, t.value) && Later(s, t.value) && t.value.phase == LookedUp && t.value.validation.None?
            && t.value.generation == if s.phase == LookedUp then s.generation else s.generation + 1)
  {
  }

  lemma FinishCoherent(s: State)
    requires Coherent(s)
    ensures var t := Finish(s);
      && (t.Ok? <==> s.phase in {WorkerValidated, Finished})
      && (t.Ok? ==>
            && Continues(s, t.value) && Later(s, t.value)
            && t.value.validation == s.validation && t.value.allocation == s.allocation)
  {
  }

  lemma FromHandoffCoherent(h: Handoff, layout: Layout)
    requires h.plan.requestId == h.allocation.requestId
    ensures var t := FromHandoff(h, layout);
      t.Ok? ==> Coherent(t.value) && t.value.plan == h.plan && t.value.allocation == Some(h.allocation)
  {
  }

  /** A receipt is accepted exactly when it is for this request, this generation and these
      block tables, disposes of all matches, and is not a second, different answer. */
  lemma ReceiptAcceptedIff(s: State, r: Receipt)
    requires Coherent(s) && WellFormedReceipt(r)
    ensures ApplyValidation(s, r).Ok? <==>
      && s.allocation == Some(r.allocation)
      && Partitions(r, |s.plan.matchPlan.matches|)
      && (s.phase == HandedOff || s.validation == Some(r))
  {
  }

  // ----- the owner of all request states

  type States = map<string, State>

  function Updated(states: States, id: string, r: Result<State>): States {
    if r.Ok? then states[id := r.value] else states
  }

  function StateOf(states: States, id: string): Result<State> {
    if id in states then Ok(states[id]) else Err(UnknownRequest)
  }

  function AllocateIn(
      states: States, layout: Layout, id: string, ids: seq<seq<int>>, externalTokens: int): Result<State>
  {
    var s :- StateOf(states, id);
    Allocate(s, layout, ids, externalTokens)
  }

  function HandOffIn(states: States, id: string): Result<State> {
    var s :- StateOf(states, id);
    HandOff(s)
  }

  function PreemptIn(states: States, id: string): Result<State> {
    var s :- StateOf(states, id);
    Preempt(s)
  }

  function FinishIn(states: States, id: string): Result<State> {
    var s :- StateOf(states, id);
    Finish(s)
  }

  function ApplyIn(states: States, r: Receipt): Result<State> {
    var s :- StateOf(states, r.requestId);
    ApplyValidation(s, r)
  }

  function AcceptIn(states: States, layout: Layout, m: Handoff): Result<State> {
    var id := m.plan.requestId;
    if id in states then
      if states[id].handoff == Some(m) then Ok(states[id]) else Err(DuplicateRequestConflict)
    else FromHandoff(m, layout)
  }

  /** The receipt a worker builds for its current allocation. */
  function WorkerReceipt(states: States, id: string, loaded: seq<int>, rejected: seq<int>): Result<Receipt> {
    var s :- StateOf(states, id);
    if s.allocation.None? then Err(LifecycleMisuse) else MakeReceipt(id, s.allocation.value, loaded, rejected)
  }

  function ValidateIn(states: States, id: string, loaded: seq<int>, rejected: seq<int>): Result<State> {
    var r :- WorkerReceipt(states, id, loaded, rejected);
    ApplyIn(states, r)
  }

  function RecordIn(states: States, plan: RequestPlan): Result<State> {
    if plan.requestId in states then
      if states[plan.requestId].plan == plan then Ok(states[plan.requestId]) else Err(DuplicateRequestConflict)
    else Ok(Initial(plan))
  }

  class RequestControlPlane {
    const layout: Layout
    var states: States

    constructor (layout: Layout)
      ensures this.layout == layout && states == map[]
    {
      this.layout := layout;
      states := map[];
    }

    method Lookup(requestId: string, promptTokens: int, segments: seq<TokenSegment>, matchPlan: MatchPlan)
        returns (r: Result<State>)
      modifies this
      ensures !Acceptable(requestId, promptTokens, segments, matchPlan) ==>
        r == Err(BadRequestPlan) && states == old(states)
      ensures Acceptable(requestId, promptTokens, segments, matchPlan) ==>
        var plan := RequestPlan(requestId, promptTokens, SortBy(SegmentLe, segments), matchPlan);
        && ValidPlan(plan)
        && r == RecordIn(old(states), plan)
        && states == Updated(old(states), requestId, r)
    {
      var made := MakeRequestPlan(requestId, promptTokens, segments, matchPlan);
      if made.InvalidRequestPlan? {
        return Err(BadRequestPlan);
      }
      if requestId in states {
        var existing := states[requestId];
        if existing.plan == made.plan {
          assert states == states[requestId := existing];
          return Ok(existing);
        }
        return Err(DuplicateRequestConflict);
      }
      var state := Initial(made.plan);
      states := states[requestId := state];
      return Ok(state);
    }

    method AllocateRequest(id: string, ids: seq<seq<int>>, externalTokens: int) returns (r: Result<State>)
      modifies this
      ensures r == AllocateIn(old(states), layout, id, ids, externalTokens)
      ensures states == Updated(old(states), id, r)
    {
      if id !in states {
        return Err(UnknownRequest);
      }
      r := Allocate(states[id], layout, ids, externalTokens);
      if r.Ok? {
        states := states[id := r.value];
      }
    }

    method HandOffRequest(id: string) returns (r: Result<Handoff>)
      requires forall k :: k in states ==> Coherent(states[k])
      modifies this
      ensures var t := HandOffIn(old(states), id);
        && states == Updated(old(states), id, t)
        && (t.Ok? ==> t.value.handoff.Some? && r == Ok(t.value.handoff.value))
        && (t.Err? ==> r == Err(t.error))
    {
      if id !in states {
        return Err(UnknownRequest);
      }
      var t := HandOff(states[id]);
      if t.Err? {
        return Err(t.error);
      }
      states := states[id := t.value];
      r := Ok(t.value.handoff.value);
    }

    method AcceptHandoff(m: Handoff) returns (r: Result<State>)
      modifies this
      ensures r == AcceptIn(old(states), layout, m)
      ensures states == Updated(old(states), m.plan.requestId, r)
    {
      var id := m.plan.requestId;
      if id in states {
        if states[id].handoff == Some(m) {
          assert states == states[id := states[id]];
          return Ok(states[id]);
        }
        return Err(DuplicateRequestConflict);
      }
      r := FromHandoff(m, layout);
      if r.Ok? {
        states := states[id := r.value];
      }
    }

    method ValidateWorker(id: string, loaded: seq<int>, rejected: seq<int>) returns (r: Result<Receipt>)
      requires forall k :: k in states ==> states[k].plan.requestId == k
      modifies this
      ensures var t := ValidateIn(old(states), id, loaded, rejected);
        && states == Updated(old(states), id, t)
        && (t.Ok? ==> r == WorkerReceipt(old(states), id, loaded, rejected))
        && (t.Err? ==> r == Err(t.error))
    {
      if id !in states {
        return Err(UnknownRequest);
      }
      if states[id].allocation.None? {
        return Err(LifecycleMisuse);
      }
      r := MakeReceipt(id, states[id].allocation.value, loaded, rejected);
      if r.Err? {
        return;
      }
      var t := ApplyValidation(states[id], r.value);
      if t.Err? {
        return Err(t.error);
      }
      states := states[id := t.value];
    }

    method ApplyWorkerValidation(receipt: Receipt) returns (r: Result<State>)
      modifies this
      ensures r == ApplyIn(old(states), receipt)
      ensures states == Updated(old(states), receipt.requestId, r)
    {
      if receipt.requestId !in states {
        return Err(UnknownRequest);
      }
      r := ApplyValidation(states[receipt.requestId], receipt);
      if r.Ok? {
        states := states[receipt.requestId := r.value];
      }
    }

    method PreemptRequest(id: string) returns (r: Result<State>)
      modifies this
      ensures r == PreemptIn(old(states), id)
      ensures states == Updated(old(states), id, r)
    {
      if id !in states {
        return Err(UnknownRequest);
      }
      r := Preempt(states[id]);
      if r.Ok? {
        states := states[id := r.value];
      }
    }

    method FinishRequest(id: string) returns (r: Result<State>)
      modifies this
      ensures r == FinishIn(old(states), id)
      ensures states == Updated(old(states), id, r)
    {
      if id !in states {
        return Err(UnknownRequest);
      }
      r := Finish(states[id]);
      if r.Ok? {
        states := states[id := r.value];
      }
    }

    method Discard(id: string) returns (s: Option<State>)
      modifies this
      ensures s == if id in old(states) then Some(old(states)[id]) else None
      ensures states == old(states) - {id}
    {
      if id in states {
        s := Some(states[id]);
        states := states - {id};
      } else {
        s := None;
        assert states == states - {id};
      }
    }
  }
}
