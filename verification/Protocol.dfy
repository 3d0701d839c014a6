/** The scheduler and one worker, connected by messages that may be delayed, duplicated and
    reordered: a message once sent can be delivered at any later time, any number of times. */
module Protocol {
  import opened Order
  import opened Models
  import opened Planner
  import opened RequestPlans
  import opened ControlPlane

  datatype System = System(scheduler: States, worker: States, handoffs: set<Handoff>, receipts: set<Receipt>)

  datatype Event =
    | Lookup(plan: RequestPlan)
    | AllocateBlocks(id: string, ids: seq<seq<int>>, externalTokens: int)
    | SendHandoff(id: string)
    | DeliverReceipt(receipt: Receipt)
    | PreemptRequest(id: string)
    | FinishRequest(id: string)
    | SchedulerDiscard(id: string)
    | DeliverHandoff(handoff: Handoff)
    | WorkerValidate(id: string, loaded: seq<int>, rejected: seq<int>)
    | WorkerDiscard(id: string)

  /** Plans come from the request-plan constructor; messages must have been sent. */
  ghost predicate Enabled(s: System, e: Event) {
    match e
    case Lookup(plan) => ValidPlan(plan)
    case DeliverReceipt(r) => r in s.receipts
    case DeliverHandoff(h) => h in s.handoffs
    case _ => true
  }

  function Next(layout: Layout, s: System, e: Event): System {
    match e
    case Lookup(plan) =>
      s.(scheduler := Updated(s.scheduler, plan.requestId, RecordIn(s.scheduler, plan)))
    case AllocateBlocks(id, ids, externalTokens) =>
      s.(scheduler := Updated(s.scheduler, id, AllocateIn(s.scheduler, layout, id, ids, externalTokens)))
    case SendHandoff(id) =>
      var t := HandOffIn(s.scheduler, id);
      s.(scheduler := Updated(s.scheduler, id, t),
         handoffs := s.handoffs + (if t.Ok? && t.value.handoff.Some? then {t.value.handoff.value} else {}))
    case DeliverReceipt(r) =>
      s.(scheduler := Updated(s.scheduler, r.requestId, ApplyIn(s.scheduler, r)))
    case PreemptRequest(id) =>
      s.(scheduler := Updated(s.scheduler, id, PreemptIn(s.scheduler, id)))
    case FinishRequest(id) =>
      s.(scheduler := Updated(s.scheduler, id, FinishIn(s.scheduler, id)))
    case SchedulerDiscard(id) =>
      s.(scheduler := s.scheduler - {id})
    case DeliverHandoff(h) =>
      s.(worker := Updated(s.worker, h.plan.requestId, AcceptIn(s.worker, layout, h)))
    case WorkerValidate(id, loaded, rejected) =>
      var t := ValidateIn(s.worker, id, loaded, rejected);
      s.(worker := Updated(s.worker, id, t),
         receipts := s.receipts + (if t.Ok? then {WorkerReceipt(s.worker, id, loaded, rejected).value} else {}))
    case WorkerDiscard(id) =>
      s.(worker := s.worker - {id})
  }

  const Start := System(map[], map[], {}, {})

  /** A run: the systems passed through, one more than there are events. */
  ghost predicate IsRun(layout: Layout, systems: seq<System>, events: seq<Event>) {
    && |systems| == |events| + 1
    && systems[0] == Start
    && forall i :: 0 <= i < |events| ==>
         Enabled(systems[i], events[i]) && systems[i + 1] == Next(layout, systems[i], events[i])
  }

  // ----- safety in every run

  ghost predicate StatesOk(states: States) {
    forall id :: id in states ==> Coherent(states[id]) && states[id].plan.requestId == id
  }

  ghost predicate MessagesOk(handoffs: set<Handoff>, receipts: set<Receipt>) {
    && (forall h :: h in handoffs ==> h.plan.requestId == h.allocation.requestId)
    && (forall r :: r in receipts ==> WellFormedReceipt(r))
  }

  /** Every validation held by the scheduler was sent by the worker. */
  ghost predicate ValidationsSent(states: States, receipts: set<Receipt>) {
    forall id :: id in states && states[id].validation.Some? ==> states[id].validation.value in receipts
  }

  ghost predicate Safe(s: System) {
    && StatesOk(s.scheduler) && StatesOk(s.worker)
    && MessagesOk(s.handoffs, s.receipts)
    && ValidationsSent(s.scheduler, s.receipts)
  }

  lemma UpdateOk(states: States, id: string, r: Result<State>, receipts: set<Receipt>)
    requires StatesOk(states) && ValidationsSent(states, receipts)
    requires r.Ok? ==>
      && Coherent(r.value) && r.value.plan.requestId == id
      && (r.value.validation.Some? ==> r.value.validation.value in receipts)
    ensures StatesOk(Updated(states, id, r)) && ValidationsSent(Updated(states, id, r), receipts)
  {
  }

  lemma AllocateSafe(layout: Layout, s: System, id: string, ids: seq<seq<int>>, externalTokens: int)
    requires Safe(s)
    ensures Safe(Next(layout, s, AllocateBlocks(id, ids, externalTokens)))
  {
    if id in s.scheduler {
      AllocateCoherent(s.scheduler[id], layout, ids, externalTokens);
    }
    UpdateOk(s.scheduler, id, AllocateIn(s.scheduler, layout, id, ids, externalTokens), s.receipts);
  }

  lemma SendHandoffSafe(layout: Layout, s: System, id: string)
    requires Safe(s)
    ensures Safe(Next(layout, s, SendHandoff(id)))
  {
    if id in s.scheduler {
      HandOffCoherent(s.scheduler[id]);
    }
    UpdateOk(s.scheduler, id, HandOffIn(s.scheduler, id), s.receipts);
  }

  lemma DeliverReceiptSafe(layout: Layout, s: System, r: Receipt)
    requires Safe(s) && r in s.receipts
    ensures Safe(Next(layout, s, DeliverReceipt(r)))
  {
    if r.requestId in s.scheduler {
      ApplyCoherent(s.scheduler[r.requestId], r);
    }
    UpdateOk(s.scheduler, r.requestId, ApplyIn(s.scheduler, r), s.receipts);
  }

  lemma PreemptSafe(layout: Layout, s: System, id: string)
    requires Safe(s)
    ensures Safe(Next(layout, s, PreemptRequest(id)))
  {
    if id in s.scheduler {
      PreemptCoherent(s.scheduler[id]);
    }
    UpdateOk(s.scheduler, id, PreemptIn(s.scheduler, id), s.receipts);
  }

  lemma FinishSafe(layout: Layout, s: System, id: string)
    requires Safe(s)
    ensures Safe(Next(layout, s, FinishRequest(id)))
  {
    if id in s.scheduler {
      FinishCoherent(s.scheduler[id]);
    }
    UpdateOk(s.scheduler, id, FinishIn(s.scheduler, id), s.receipts);
  }

  lemma LookupSafe(layout: Layout, s: System, plan: RequestPlan)
    requires Safe(s)
    ensures Safe(Next(layout, s, Lookup(plan)))
  {
    UpdateOk(s.scheduler, plan.requestId, RecordIn(s.scheduler, plan), s.receipts);
  }

  lemma WorkerUpdateOk(states: States, id: string, r: Result<State>)
    requires StatesOk(states)
    requires r.Ok? ==> Coherent(r.value) && r.value.plan.requestId == id
    ensures StatesOk(Updated(states, id, r))
  {
  }

  lemma DeliverHandoffSafe(layout: Layout, s: System, h: Handoff)
    requires Safe(s) && h in s.handoffs
    ensures Safe(Next(layout, s, DeliverHandoff(h)))
  {
    FromHandoffCoherent(h, layout);
    WorkerUpdateOk(s.worker, h.plan.requestId, AcceptIn(s.worker, layout, h));
  }

  lemma WorkerReceiptOk(states: States, id: string, loaded: seq<int>, rejected: seq<int>)
    requires StatesOk(states) && ValidateIn(states, id, loaded, rejected).Ok?
    ensures id in states && WorkerReceipt(states, id, loaded, rejected).Ok?
    ensures var r := WorkerReceipt(states, id, loaded, rejected).value;
      && WellFormedReceipt(r) && r.requestId == id && states[id].allocation == Some(r.allocation)
    ensures var t := ValidateIn(states, id, loaded, rejected).value;
      Coherent(t) && t.plan == states[id].plan && t.allocation == states[id].allocation
  {
    ReceiptWellFormed(id, states[id].allocation.value, loaded, rejected);
    ApplyCoherent(states[id], WorkerReceipt(states, id, loaded, rejected).value);
  }

  lemma WorkerValidateSafe(layout: Layout, s: System, id: string, loaded: seq<int>, rejected: seq<int>)
    requires Safe(s)
    ensures Safe(Next(layout, s, WorkerValidate(id, loaded, rejected)))
  {
    if ValidateIn(s.worker, id, loaded, rejected).Ok? {
      WorkerReceiptOk(s.worker, id, loaded, rejected);
    }
    WorkerUpdateOk(s.worker, id, ValidateIn(s.worker, id, loaded, rejected));
  }

  lemma NextSafe(layout: Layout, s: System, e: Event)
    requires Safe(s) && Enabled(s, e)
    ensures Safe(Next(layout, s, e))
  {
    match e
    case Lookup(plan) => LookupSafe(layout, s, plan);
    case AllocateBlocks(id, ids, externalTokens) => AllocateSafe(layout, s, id, ids, externalTokens);
    case SendHandoff(id) => SendHandoffSafe(layout, s, id);
    case DeliverReceipt(r) => DeliverReceiptSafe(layout, s, r);
    case PreemptRequest(id) => PreemptSafe(layout, s, id);
    case FinishRequest(id) => FinishSafe(layout, s, id);
    case SchedulerDiscard(id) =>
    case DeliverHandoff(h) => DeliverHandoffSafe(layout, s, h);
    case WorkerValidate(id, loaded, rejected) => WorkerValidateSafe(layout, s, id, loaded, rejected);
    case WorkerDiscard(id) =>
  }

  lemma {:induction false} RunSafe(layout: Layout, systems: seq<System>, events: seq<Event>, i: nat)
    requires IsRun(layout, systems, events) && i < |systems|
    ensures Safe(systems[i])
  {
    if i > 0 {
      RunSafe(layout, systems, events, i - 1);
      NextSafe(layout, systems[i - 1], events[i - 1]);
    }
  }

  /** In every run, discards included, a validated or finished request holds a receipt that a
      worker sent for exactly its generation and block tables and that disposes of all its
      matches. */
  lemma ValidatedHoldsCurrentReceipt(layout: Layout, systems: seq<System>, events: seq<Event>, i: nat, id: string)
    requires IsRun(layout, systems, events) && i < |systems| && id in systems[i].scheduler
    ensures var s := systems[i].scheduler[id];
      s.phase in {WorkerValidated, Finished} ==>
        && s.validation.Some?
        && s.validation.value in systems[i].receipts
        && s.allocation == Some(s.validation.value.allocation)
        && s.generation == s.validation.value.allocation.generation
        && Partitions(s.validation.value, |s.plan.matchPlan.matches|)
  {
    RunSafe(layout, systems, events, i);
  }

  // ----- plans stay checked

  ghost predicate PlansFrom(s: System, plans: set<RequestPlan>) {
    && (forall id :: id in s.scheduler ==> s.scheduler[id].plan in plans)
    && (forall id :: id in s.worker ==> s.worker[id].plan in plans)
    && (forall h :: h in s.handoffs ==> h.plan in plans)
  }

  lemma NextPlans(layout: Layout, s: System, e: Event, plans: set<RequestPlan>)
    requires Safe(s) && Enabled(s, e) && PlansFrom(s, plans)
    ensures PlansFrom(Next(layout, s, e), plans + if e.Lookup? then {e.plan} else {})
  {
    match e
    case AllocateBlocks(id, ids, externalTokens) =>
      if id in s.scheduler { AllocateCoherent(s.scheduler[id], layout, ids, externalTokens); }
    case SendHandoff(id) =>
      if id in s.scheduler { HandOffCoherent(s.scheduler[id]); }
    case DeliverReceipt(r) =>
      if r.requestId in s.scheduler { ApplyCoherent(s.scheduler[r.requestId], r); }
    case PreemptRequest(id) =>
      if id in s.scheduler { PreemptCoherent(s.scheduler[id]); }
    case FinishRequest(id) =>
      if id in s.scheduler { FinishCoherent(s.scheduler[id]); }
    case _ =>
      NextWorkerPlans(layout, s, e, plans);
  }

  lemma NextWorkerPlans(layout: Layout, s: System, e: Event, plans: set<RequestPlan>)
    requires Safe(s) && Enabled(s, e) && PlansFrom(s, plans)
    requires e.Lookup? || e.SchedulerDiscard? || e.DeliverHandoff? || e.WorkerValidate? || e.WorkerDiscard?
    ensures PlansFrom(Next(layout, s, e), plans + if e.Lookup? then {e.plan} else {})
  {
    match e
    case DeliverHandoff(h) =>
      FromHandoffCoherent(h, layout);
    case WorkerValidate(id, loaded, rejected) =>
      if ValidateIn(s.worker, id, loaded, rejected).Ok? { WorkerReceiptOk(s.worker, id, loaded, rejected); }
    case _ =>
  }

  lemma {:induction false} RunPlans(
      layout: Layout, systems: seq<System>, events: seq<Event>, i: nat) returns (plans: set<RequestPlan>)
    requires IsRun(layout, systems, events) && i < |systems|
    ensures PlansFrom(systems[i], plans)
    ensures forall p :: p in plans ==> ValidPlan(p)
  {
    if i == 0 {
      plans := {};
    } else {
      var before := RunPlans(layout, systems, events, i - 1);
      RunSafe(layout, systems, events, i - 1);
      var e := events[i - 1];
      assert Enabled(systems[i - 1], e);
      NextPlans(layout, systems[i - 1], e, before);
      plans := before + if e.Lookup? then {e.plan} else {};
    }
  }

  /** Every state either side ever holds is one from which counters can be derived consistently. */
  lemma RunStatesReachable(layout: Layout, systems: seq<System>, events: seq<Event>, i: nat)
    requires IsRun(layout, systems, events) && i < |systems|
    ensures forall id :: id in systems[i].scheduler ==> Reachable(systems[i].scheduler[id])
    ensures forall id :: id in systems[i].worker ==> Reachable(systems[i].worker[id])
  {
    var plans := RunPlans(layout, systems, events, i);
    RunSafe(layout, systems, events, i);
    forall id | id in systems[i].scheduler
      ensures Reachable(systems[i].scheduler[id])
    {
      assert systems[i].scheduler[id].plan in plans;
    }
    forall id | id in systems[i].worker
      ensures Reachable(systems[i].worker[id])
    {
      assert systems[i].worker[id].plan in plans;
    }
  }

  // ----- one lifetime of a request: no scheduler discard

  ghost predicate Alive(events: seq<Event>, id: string, i: nat, j: nat) {
    i <= j <= |events| && forall k :: i <= k < j ==> events[k] != SchedulerDiscard(id)
  }

  lemma UpdateLater(states: States, k: string, r: Result<State>, id: string)
    requires id in states && (k == id && r.Ok? ==> Later(states[id], r.value))
    ensures id in Updated(states, k, r) && Later(states[id], Updated(states, k, r)[id])
  {
  }

  lemma NextLater(layout: Layout, s: System, e: Event, id: string)
    requires Safe(s) && Enabled(s, e) && id in s.scheduler && e != SchedulerDiscard(id)
    ensures id in Next(layout, s, e).scheduler
    ensures Later(s.scheduler[id], Next(layout, s, e).scheduler[id])
  {
    var state := s.scheduler[id];
    match e
    case Lookup(plan) =>
      UpdateLater(s.scheduler, plan.requestId, RecordIn(s.scheduler, plan), id);
    case AllocateBlocks(k, ids, externalTokens) =>
      AllocateCoherent(state, layout, ids, externalTokens);
      UpdateLater(s.scheduler, k, AllocateIn(s.scheduler, layout, k, ids, externalTokens), id);
    case SendHandoff(k) =>
      HandOffCoherent(state);
      UpdateLater(s.scheduler, k, HandOffIn(s.scheduler, k), id);
    case DeliverReceipt(r) =>
      ApplyCoherent(state, r);
      UpdateLater(s.scheduler, r.requestId, ApplyIn(s.scheduler, r), id);
    case PreemptRequest(k) =>
      PreemptCoherent(state);
      UpdateLater(s.scheduler, k, PreemptIn(s.scheduler, k), id);
    case FinishRequest(k) =>
      FinishCoherent(state);
      UpdateLater(s.scheduler, k, FinishIn(s.scheduler, k), id);
    case _ =>
  }

  lemma StepLater(layout: Layout, systems: seq<System>, events: seq<Event>, id: string, k: nat)
    requires IsRun(layout, systems, events) && k < |events| && events[k] != SchedulerDiscard(id)
    requires id in systems[k].scheduler
    ensures id in systems[k + 1].scheduler && Later(systems[k].scheduler[id], systems[k + 1].scheduler[id])
  {
    RunSafe(layout, systems, events, k);
    assert Enabled(systems[k], events[k]) && systems[k + 1] == Next(layout, systems[k], events[k]);
    NextLater(layout, systems[k], events[k], id);
  }

  /** From event `k` to the next the request is kept and only moves on. */
  ghost predicate MovesOn(systems: seq<System>, id: string, k: nat)
    requires k + 1 < |systems|
  {
    id in systems[k].scheduler ==>
      id in systems[k + 1].scheduler && Later(systems[k].scheduler[id], systems[k + 1].scheduler[id])
  }

  lemma {:induction false} MovesOnTogether(systems: seq<System>, id: string, i: nat, j: nat)
    requires i <= j < |systems| && id in systems[i].scheduler
    requires forall k :: i <= k < j ==> MovesOn(systems, id, k)
    ensures id in systems[j].scheduler && Later(systems[i].scheduler[id], systems[j].scheduler[id])
    decreases j - i
  {
    if i < j {
      MovesOnTogether(systems, id, i, j - 1);
      assert MovesOn(systems, id, j - 1);
    }
  }

  lemma RunLater(layout: Layout, systems: seq<System>, events: seq<Event>, id: string, i: nat, j: nat)
    requires IsRun(layout, systems, events) && Alive(events, id, i, j) && id in systems[i].scheduler
    ensures id in systems[j].scheduler && Later(systems[i].scheduler[id], systems[j].scheduler[id])
  {
    forall k | i <= k < j
      ensures MovesOn(systems, id, k)
    {
      if id in systems[k].scheduler {
        StepLater(layout, systems, events, id, k);
      }
    }
    MovesOnTogether(systems, id, i, j);
  }

  /** Event `i` delivers `r` and the scheduler takes it. */
  ghost predicate AcceptsAt(systems: seq<System>, events: seq<Event>, i: nat, r: Receipt) {
    i < |events| && i < |systems| && events[i] == DeliverReceipt(r) && ApplyIn(systems[i].scheduler, r).Ok?
  }

  lemma AcceptedState(layout: Layout, systems: seq<System>, events: seq<Event>, i: nat, r: Receipt)
    requires IsRun(layout, systems, events) && AcceptsAt(systems, events, i, r)
    ensures r.requestId in systems[i].scheduler && r.requestId in systems[i + 1].scheduler
    ensures systems[i].scheduler[r.requestId].generation == r.allocation.generation
    ensures var t := systems[i + 1].scheduler[r.requestId];
      t.validation == Some(r) && t.generation == r.allocation.generation
  {
    RunSafe(layout, systems, events, i);
    ApplyCoherent(systems[i].scheduler[r.requestId], r);
  }

  /** At most one receipt is accepted per generation of a lifetime. */
  lemma OneReceiptPerGeneration(
      layout: Layout, systems: seq<System>, events: seq<Event>, i: nat, r: Receipt, j: nat, q: Receipt)
    requires IsRun(layout, systems, events) && i < j
    requires AcceptsAt(systems, events, i, r) && AcceptsAt(systems, events, j, q)
    requires r.requestId == q.requestId && r.allocation.generation == q.allocation.generation
    requires Alive(events, r.requestId, i, j)
    ensures r == q
  {
    AcceptedState(layout, systems, events, i, r);
    AcceptedState(layout, systems, events, j, q);
    RunLater(layout, systems, events, r.requestId, i + 1, j + 1);
  }

  // ----- nothing sent before a preemption is accepted after it

  /** Everything in flight for `id` belongs to a generation that has started, and what belongs
      to the current one is for the current block tables. */
  ghost predicate InFlightOk(s: System, id: string) {
    && (forall h :: h in s.handoffs && h.allocation.requestId == id ==> Issued(s, id, h.allocation))
    && (id in s.worker && s.worker[id].allocation.Some? ==> Issued(s, id, s.worker[id].allocation.value))
    && (forall r :: r in s.receipts && r.requestId == id ==> Issued(s, id, r.allocation))
  }

  ghost predicate Issued(s: System, id: string, a: Allocation) {
    && id in s.scheduler
    && a.generation <= s.scheduler[id].generation
    && (a.generation == s.scheduler[id].generation ==> s.scheduler[id].allocation == Some(a))
  }

  /** Once issued, always issued, as long as the lifetime lasts. */
  lemma IssuedStays(layout: Layout, s: System, e: Event, id: string, a: Allocation)
    requires Safe(s) && Enabled(s, e) && e != SchedulerDiscard(id) && Issued(s, id, a)
    ensures Issued(Next(layout, s, e), id, a)
  {
    NextLater(layout, s, e, id);
  }

  lemma NewMessagesIssued(layout: Layout, s: System, e: Event, id: string)
    requires Safe(s) && Enabled(s, e) && e != SchedulerDiscard(id) && InFlightOk(s, id)
    ensures InFlightOk(Next(layout, s, e), id)
  {
    var t := Next(layout, s, e);
    forall h | h in t.handoffs && h.allocation.requestId == id
      ensures Issued(t, id, h.allocation)
    {
      if h in s.handoffs {
        IssuedStays(layout, s, e, id, h.allocation);
      } else {
        HandOffCoherent(s.scheduler[e.id]);
      }
    }
    forall r | r in t.receipts && r.requestId == id
      ensures Issued(t, id, r.allocation)
    {
      if r !in s.receipts {
        WorkerReceiptOk(s.worker, e.id, e.loaded, e.rejected);
      }
      IssuedStays(layout, s, e, id, r.allocation);
    }
    if id in t.worker && t.worker[id].allocation.Some? {
      WorkerHolds(layout, s, e, id);
      IssuedStays(layout, s, e, id, t.worker[id].allocation.value);
    }
  }

  /** A worker's allocation was already its own, or arrives with a handoff. */
  lemma WorkerHolds(layout: Layout, s: System, e: Event, id: string)
    requires Safe(s) && Enabled(s, e) && InFlightOk(s, id)
    requires var t := Next(layout, s, e); id in t.worker && t.worker[id].allocation.Some?
    ensures Issued(s, id, Next(layout, s, e).worker[id].allocation.value)
  {
    match e
    case DeliverHandoff(h) =>
      FromHandoffCoherent(h, layout);
    case WorkerValidate(k, loaded, rejected) =>
      if ValidateIn(s.worker, k, loaded, rejected).Ok? { WorkerReceiptOk(s.worker, k, loaded, rejected); }
    case _ =>
  }

  lemma {:induction false} RunInFlight(layout: Layout, systems: seq<System>, events: seq<Event>, id: string, i: nat)
    requires IsRun(layout, systems, events) && i < |systems| && Alive(events, id, 0, i)
    ensures InFlightOk(systems[i], id)
  {
    if i > 0 {
      RunInFlight(layout, systems, events, id, i - 1);
      RunSafe(layout, systems, events, i - 1);
      NewMessagesIssued(layout, systems[i - 1], events[i - 1], id);
    }
  }

  /** A preemption closes every generation that had begun by then: as long as the request is not
      discarded, no receipt for one of them is accepted again, whenever and wherever it was made. */
  lemma NoReceiptForClosedGeneration(
      layout: Layout, systems: seq<System>, events: seq<Event>, i: nat, r: Receipt, j: nat)
    requires IsRun(layout, systems, events) && i < j < |events|
    requires events[i] == PreemptRequest(r.requestId) && PreemptIn(systems[i].scheduler, r.requestId).Ok?
    requires var s := systems[i].scheduler[r.requestId];
      r.allocation.generation <= s.generation && (s.allocation.None? ==> r.allocation.generation < s.generation)
    requires Alive(events, r.requestId, i, j)
    ensures !AcceptsAt(systems, events, j, r)
  {
    var id := r.requestId;
    RunSafe(layout, systems, events, i);
    PreemptCoherent(systems[i].scheduler[id]);
    assert systems[i + 1] == Next(layout, systems[i], events[i]);
    assert r.allocation.generation < systems[i + 1].scheduler[id].generation;
    RunLater(layout, systems, events, id, i + 1, j);
    if AcceptsAt(systems, events, j, r) {
      AcceptedState(layout, systems, events, j, r);
    }
  }

  /** In particular a receipt that was in flight when its request was preempted. */
  lemma NoReceiptFromBeforePreemption(
      layout: Layout, systems: seq<System>, events: seq<Event>, i: nat, r: Receipt, j: nat)
    requires IsRun(layout, systems, events) && i < j < |events|
    requires events[i] == PreemptRequest(r.requestId) && PreemptIn(systems[i].scheduler, r.requestId).Ok?
    requires r in systems[i].receipts
    requires Alive(events, r.requestId, 0, j)
    ensures !AcceptsAt(systems, events, j, r)
  {
    RunInFlight(layout, systems, events, r.requestId, i);
    NoReceiptForClosedGeneration(layout, systems, events, i, r, j);
  }

  // ----- a scheduler discard ends the lifetime, and generations restart

  /** Messages are never taken back. */
  lemma {:induction false} ReceiptStaysInFlight(
      layout: Layout, systems: seq<System>, events: seq<Event>, i: nat, j: nat, r: Receipt)
    requires IsRun(layout, systems, events) && i <= j < |systems| && r in systems[i].receipts
    ensures r in systems[j].receipts
    decreases j - i
  {
    if i < j {
      ReceiptStaysInFlight(layout, systems, events, i, j - 1, r);
      NextKeepsReceipts(layout, systems[j - 1], events[j - 1], r);
    }
  }

  lemma NextKeepsReceipts(layout: Layout, s: System, e: Event, r: Receipt)
    requires r in s.receipts
    ensures r in Next(layout, s, e).receipts
  {
  }

  /** When a receipt from before a discard is accepted after it: exactly when the id has been
      looked up again and its new lifetime stands at the very allocation the receipt names, with
      as many matches as the receipt disposes of, and has no other answer yet. */
  lemma OldReceiptAcceptedIff(
      layout: Layout, systems: seq<System>, events: seq<Event>, i: nat, j: nat, r: Receipt)
    requires IsRun(layout, systems, events) && i < j < |events|
    requires events[i] == SchedulerDiscard(r.requestId) && r in systems[i].receipts
    requires events[j] == DeliverReceipt(r)
    ensures AcceptsAt(systems, events, j, r) <==>
      && r.requestId in systems[j].scheduler
      && var s := systems[j].scheduler[r.requestId];
         && s.allocation == Some(r.allocation)
         && Partitions(r, |s.plan.matchPlan.matches|)
         && (s.phase == HandedOff || s.validation == Some(r))
  {
    RunSafe(layout, systems, events, j);
    ReceiptStaysInFlight(layout, systems, events, i, j, r);
    if r.requestId in systems[j].scheduler {
      ReceiptAcceptedIff(systems[j].scheduler[r.requestId], r);
    }
  }

  const EXAMPLE_LAYOUT: Layout := [["layer"]]
  const EXAMPLE_PLAN := RequestPlan("id", 0, [], MatchPlan([], [], 0))
  const EXAMPLE_BLOCKS := GroupedBlocks(EXAMPLE_LAYOUT, [GroupSnapshot(0, ["layer"], [0])])
  const EXAMPLE_ALLOCATION := Allocation("id", 0, EXAMPLE_BLOCKS, 0)
  const EXAMPLE_HANDOFF := Handoff(METADATA_SCHEMA_VERSION, EXAMPLE_PLAN, EXAMPLE_ALLOCATION)
  const EXAMPLE_RECEIPT := Receipt("id", EXAMPLE_ALLOCATION, [], [])
  const BOUND := State(EXAMPLE_PLAN, Allocated, 0, Some(EXAMPLE_ALLOCATION), None, None, 0)
  const HANDED_OFF := State(EXAMPLE_PLAN, HandedOff, 0, Some(EXAMPLE_ALLOCATION), Some(EXAMPLE_HANDOFF), None, 0)
  const VALIDATED := HANDED_OFF.(phase := WorkerValidated, validation := Some(EXAMPLE_RECEIPT))

  lemma ExampleTransitions()
    ensures ValidPlan(EXAMPLE_PLAN)
    ensures Allocate(Initial(EXAMPLE_PLAN), EXAMPLE_LAYOUT, [[0]], 0) == Ok(BOUND)
    ensures HandOff(BOUND) == Ok(HANDED_OFF)
    ensures FromHandoff(EXAMPLE_HANDOFF, EXAMPLE_LAYOUT) == Ok(HANDED_OFF)
    ensures MakeReceipt("id", EXAMPLE_ALLOCATION, [], []) == Ok(EXAMPLE_RECEIPT)
    ensures ApplyValidation(HANDED_OFF, EXAMPLE_RECEIPT) == Ok(VALIDATED)
  {
    assert ToSet([0]) == {0};
    assert BlockIdsOk([[0]][0]);
    var captured := Capture(EXAMPLE_LAYOUT, [[0]]);
    assert captured.Ok? && captured.value.groups == EXAMPLE_BLOCKS.groups;
    assert ToSet<int>([]) == {} == MatchIndexes(0);
  }

  /** The scheduler side of the example, with a given worker and messages in flight. */
  function Example(
      scheduler: States, worker: States, handoffs: set<Handoff>, receipts: set<Receipt>, e: Event): System
  {
    Next(EXAMPLE_LAYOUT, System(scheduler, worker, handoffs, receipts), e)
  }

  lemma ExampleSchedulerSteps(w: States, hs: set<Handoff>, rs: set<Receipt>)
    requires hs <= {EXAMPLE_HANDOFF}
    ensures Example(map[], w, hs, rs, Lookup(EXAMPLE_PLAN)) == System(map["id" := Initial(EXAMPLE_PLAN)], w, hs, rs)
    ensures Example(map["id" := Initial(EXAMPLE_PLAN)], w, hs, rs, AllocateBlocks("id", [[0]], 0))
         == System(map["id" := BOUND], w, hs, rs)
    ensures Example(map["id" := BOUND], w, hs, rs, SendHandoff("id"))
         == System(map["id" := HANDED_OFF], w, {EXAMPLE_HANDOFF}, rs)
  {
    ExampleTransitions();
    assert hs + {EXAMPLE_HANDOFF} == {EXAMPLE_HANDOFF};
  }

  lemma ExampleSchedulerEnds(w: States, hs: set<Handoff>, rs: set<Receipt>)
    ensures Example(map["id" := HANDED_OFF], w, hs, rs, DeliverReceipt(EXAMPLE_RECEIPT))
         == System(map["id" := VALIDATED], w, hs, rs)
    ensures Example(map["id" := HANDED_OFF], w, hs, rs, SchedulerDiscard("id")) == System(map[], w, hs, rs)
    ensures ApplyIn(map["id" := HANDED_OFF], EXAMPLE_RECEIPT).Ok?
  {
    ExampleTransitions();
    assert map["id" := HANDED_OFF] - {"id"} == map[];
  }

  lemma ExampleWorkerAccepts(states: States, hs: set<Handoff>)
    ensures Example(states, map[], hs, {}, DeliverHandoff(EXAMPLE_HANDOFF))
      == System(states, map["id" := HANDED_OFF], hs, {})
  {
    ExampleTransitions();
  }

  lemma ExampleWorkerAnswers(states: States, hs: set<Handoff>)
    ensures Example(states, map["id" := HANDED_OFF], hs, {}, WorkerValidate("id", [], []))
         == System(states, map["id" := VALIDATED], hs, {EXAMPLE_RECEIPT})
  {
    ExampleTransitions();
  }

  ghost const FIRST := [Lookup(EXAMPLE_PLAN), AllocateBlocks("id", [[0]], 0), SendHandoff("id")]

  lemma RunExtends(layout: Layout, systems: seq<System>, events: seq<Event>, e: Event, s: System)
    requires IsRun(layout, systems, events)
    requires Enabled(systems[|events|], e) && s == Next(layout, systems[|events|], e)
    ensures IsRun(layout, systems + [s], events + [e])
  {
  }

  /** Three steps at once. */
  lemma RunExtendsThree(layout: Layout, systems: seq<System>, events: seq<Event>, es: seq<Event>, ss: seq<System>)
    requires IsRun(layout, systems, events) && |es| == 3 && |ss| == 3
    requires Enabled(systems[|events|], es[0]) && ss[0] == Next(layout, systems[|events|], es[0])
    requires Enabled(ss[0], es[1]) && ss[1] == Next(layout, ss[0], es[1])
    requires Enabled(ss[1], es[2]) && ss[2] == Next(layout, ss[1], es[2])
    ensures IsRun(layout, systems + ss, events + es)
  {
    RunExtends(layout, systems, events, es[0], ss[0]);
    RunExtends(layout, systems + [ss[0]], events + [es[0]], es[1], ss[1]);
    RunExtends(layout, systems + [ss[0]] + [ss[1]], events + [es[0]] + [es[1]], es[2], ss[2]);
    assert systems + ss == systems + [ss[0]] + [ss[1]] + [ss[2]];
    assert events + es == events + [es[0]] + [es[1]] + [es[2]];
  }

  /** Looking up, allocating and handing off, from a system where the request is unknown. */
  lemma ExampleStarts(
      systems: seq<System>, events: seq<Event>, w: States, hs: set<Handoff>, rs: set<Receipt>)
      returns (more: seq<System>)
    requires IsRun(EXAMPLE_LAYOUT, systems, events) && hs <= {EXAMPLE_HANDOFF}
    requires systems[|events|] == System(map[], w, hs, rs)
    ensures |more| == 3 && more[2] == System(map["id" := HANDED_OFF], w, {EXAMPLE_HANDOFF}, rs)
    ensures IsRun(EXAMPLE_LAYOUT, systems + more, events + FIRST)
  {
    ExampleSchedulerSteps(w, hs, rs);
    assert ValidPlan(EXAMPLE_PLAN);
    more := [System(map["id" := Initial(EXAMPLE_PLAN)], w, hs, rs), System(map["id" := BOUND], w, hs, rs),
             System(map["id" := HANDED_OFF], w, {EXAMPLE_HANDOFF}, rs)];
    RunExtendsThree(EXAMPLE_LAYOUT, systems, events, FIRST, more);
  }

  /** The worker answers, and the scheduler discards the request. */
  lemma ExampleAnswered(systems: seq<System>, events: seq<Event>) returns (more: seq<System>, added: seq<Event>)
    requires IsRun(EXAMPLE_LAYOUT, systems, events)
    requires systems[|events|] == System(map["id" := HANDED_OFF], map[], {EXAMPLE_HANDOFF}, {})
    ensures |more| == |added| == 3 && added[2] == SchedulerDiscard("id")
    ensures EXAMPLE_RECEIPT in more[1].receipts
    ensures more[2] == System(map[], map["id" := VALIDATED], {EXAMPLE_HANDOFF}, {EXAMPLE_RECEIPT})
    ensures IsRun(EXAMPLE_LAYOUT, systems + more, events + added)
  {
    var hs, states := {EXAMPLE_HANDOFF}, map["id" := HANDED_OFF];
    ExampleWorkerAccepts(states, hs);
    ExampleWorkerAnswers(states, hs);
    ExampleSchedulerEnds(map["id" := VALIDATED], hs, {EXAMPLE_RECEIPT});
    added := [DeliverHandoff(EXAMPLE_HANDOFF), WorkerValidate("id", [], []), SchedulerDiscard("id")];
    more := [System(states, states, hs, {}), System(states, map["id" := VALIDATED], hs, {EXAMPLE_RECEIPT}),
             System(map[], map["id" := VALIDATED], hs, {EXAMPLE_RECEIPT})];
    RunExtendsThree(EXAMPLE_LAYOUT, systems, events, added, more);
  }

  /** The claim about preemption does not carry over to discards: when the same request is looked
      up again and gets the same block tables, a receipt from before the discard is accepted.
      `OldReceiptAcceptedIff` says exactly when that happens. */
  lemma DiscardAdmitsOldReceipt() returns (systems: seq<System>, events: seq<Event>, i: nat, j: nat, r: Receipt)
    ensures IsRun(EXAMPLE_LAYOUT, systems, events) && i < j < |events|
    ensures events[i] == SchedulerDiscard(r.requestId) && r in systems[i].receipts
    ensures AcceptsAt(systems, events, j, r)
  {
    r, i, j := EXAMPLE_RECEIPT, 5, 9;
    var begun := ExampleStarts([Start], [], map[], {}, {});
    systems, events := [Start] + begun, [] + FIRST;
    var answered, added := ExampleAnswered(systems, events);
    systems, events := systems + answered, events + added;
    var again := ExampleStarts(systems, events, map["id" := VALIDATED], {EXAMPLE_HANDOFF}, {r});
    systems, events := systems + again, events + FIRST;
    ExampleSchedulerEnds(map["id" := VALIDATED], {EXAMPLE_HANDOFF}, {r});
    RunExtends(EXAMPLE_LAYOUT, systems, events, DeliverReceipt(r), Next(EXAMPLE_LAYOUT, systems[9], DeliverReceipt(r)));
    systems, events := systems + [Next(EXAMPLE_LAYOUT, systems[9], DeliverReceipt(r))], events + [DeliverReceipt(r)];
  }
}
