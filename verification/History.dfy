/** What no step ever undoes: orders, due times, releases, checkout requests, settings and final messages. */
module History {
  import opened Wrappers
  import opened Rows
  import opened Planning
  import opened Scheduling
  import opened Checkout
  import opened Environment
  import opened Mailbox
  import opened Engine
  import opened Invariants
  import opened Preservation
  import opened PlanProof
  import opened EngineInv
  import opened EngineProof
  import opened EngineSteps
  import opened EnginePlan
  import opened EngineWork
  import opened EngineRuns

  predicate SameCheckout(i: Intent, n: Intent) {
    && n.seats == i.seats && n.expected == i.expected && n.reserved == i.reserved
    && n.holdTtl == i.holdTtl && n.unlimited == i.unlimited && n.createdAt == i.createdAt
    && (i.writeStartedAt.Some? ==> n.writeStartedAt == i.writeStartedAt)
  }

  predicate SameSlot(a: Candidate, b: Candidate) {
    && b.buyer == a.buyer && b.sub == a.sub && b.session == a.session && b.batch == a.batch
    && b.ticketNo == a.ticketNo && b.live == a.live && b.cycleNo >= a.cycleNo
  }

  /** A due time and a release are set at most once. */
  predicate SameDates(y: Cycle, z: Cycle) {
    && z.createdAt == y.createdAt && (y.dueAt.Some? ==> z.dueAt == y.dueAt)
    && (y.releasedAt.Some? ==> z.releasedAt == y.releasedAt)
  }

  ghost predicate BookingPersists(d: Db, e: Db) {
    && (forall k :: k in d.intents ==> k in e.intents && SameCheckout(d.intents[k], e.intents[k]))
    && (forall k :: k in d.cycles ==> k in e.cycles && SameDates(d.cycles[k], e.cycles[k]))
    && (forall k :: k in d.orders ==> k in e.orders && e.orders[k] == d.orders[k])
    && (forall k :: k in d.allocs ==> k in e.allocs && (e.allocs[k].active ==> d.allocs[k].active))
  }

  ghost predicate Persists(d: Db, e: Db) {
    && BookingPersists(d, e)
    && (forall c :: c in d.cands ==> c in e.cands && SameSlot(d.cands[c], e.cands[c]))
    && (forall n :: n in d.subs ==> n in e.subs && e.subs[n].config == d.subs[n].config && e.subs[n].buyer == d.subs[n].buyer)
    && MessagesPersist(d.msgs, e.msgs)
  }

  /** Messages are never lost or readdressed, and final ones are never touched. */
  ghost predicate MessagesPersist(d: map<MsgId, Message>, e: map<MsgId, Message>) {
    && (forall m :: m in d ==> m in e && e[m].kind == d[m].kind && e[m].buyer == d[m].buyer)
    && (forall m :: m in d && Final(d[m].state) ==> m in e && e[m] == d[m])
  }

  /** New orders belong to current cycles; new checkouts follow them and start out pending. */
  ghost predicate Adds(d: Db, e: Db) {
    && (forall k :: k in e.orders && k !in d.orders ==> k.cand in d.cands && k.no == d.cands[k.cand].cycleNo)
    && (forall k :: k in e.intents && k !in d.intents ==> k.cand in d.cands && k.no == d.cands[k.cand].cycleNo + 1)
    && (forall k :: k in e.intents && k !in d.intents ==> e.intents[k].state.Pending?)
  }

  lemma PersistsTransitive(d: Db, e: Db, f: Db)
    requires Persists(d, e) && Persists(e, f)
    ensures Persists(d, f)
  {
    hide BookingPersists, MessagesPersist;
    BookingTransitive(d, e, f);
    MessagesTransitive(d.msgs, e.msgs, f.msgs);
  }

  lemma BookingTransitive(d: Db, e: Db, f: Db)
    requires BookingPersists(d, e) && BookingPersists(e, f)
    ensures BookingPersists(d, f)
  {}

  lemma MessagesTransitive(d: map<MsgId, Message>, e: map<MsgId, Message>, f: map<MsgId, Message>)
    requires MessagesPersist(d, e) && MessagesPersist(e, f)
    ensures MessagesPersist(d, f)
  {}

  // ----- one graph

  ghost predicate GraphPersists(g: Graph, h: Graph) {
    && SameCheckout(g.intent, h.intent) && SameDates(g.cycle, h.cycle) && SameIdentity(g.cand, h.cand)
    && (g.order.Some? ==> h.order == g.order) && (h.alloc.active ==> g.alloc.active)
  }

  lemma WriteBooking(db: Db, k: Key, h: Graph)
    requires GraphExists(db, k) && GraphPersists(Read(db, k), h)
    ensures BookingPersists(db, Write(db, k, h))
  {}

  lemma WritePersists(db: Db, k: Key, h: Graph)
    requires GraphExists(db, k) && GraphPersists(Read(db, k), h)
    requires h.order.Some? && k !in db.orders ==> k.no == db.cands[k.cand].cycleNo
    ensures Persists(db, Write(db, k, h)) && Adds(db, Write(db, k, h))
  {
    WriteBooking(db, k, h);
  }

  lemma SamePersists(d: Db, e: Db)
    requires e.intents == d.intents && e.cycles == d.cycles && e.orders == d.orders && e.allocs == d.allocs && e.msgs == d.msgs
    requires Steady(d, e) && forall n :: n in d.subs ==> e.subs[n].buyer == d.subs[n].buyer
    ensures Persists(d, e) && Adds(d, e)
  {}

  lemma PutPersists(db: Db, c: CandId, a: Candidate)
    requires c in db.cands ==> SameIdentity(db.cands[c], a)
    ensures Persists(db, Put(db, c, a)) && Adds(db, Put(db, c, a))
  {}

  lemma NothingPersists(db: Db)
    ensures Persists(db, db) && Adds(db, db)
  {}

  // ----- transactions

  lemma StagePersists(db: Db, k: Key, stage: Stage, now: Time)
    ensures Persists(db, RecordStage(db, k, stage, now)) && Adds(db, RecordStage(db, k, stage, now))
  {
    NothingPersists(db);
    if GraphExists(db, k) { WritePersists(db, k, StagedGraph(Read(db, k), stage, now)); }
  }

  lemma ApplyPersists(db: Db, k: Key, d: Disposition)
    ensures Persists(db, ApplyRecovery(db, k, d)) && Adds(db, ApplyRecovery(db, k, d))
  {
    NothingPersists(db);
    if GraphExists(db, k) { WritePersists(db, k, Resolved(Read(db, k), d)); }
  }

  lemma HoldPersists(db: Db, t: Task, no: nat, heldAt: Time)
    requires RowsAt(db, Key(t.cand, no)) && Schedulable(db, t, no, heldAt)
    ensures var e := ScheduleAfterHold(db, t, no, heldAt).0; Persists(db, e) && Adds(db, e)
  {
    var k := Key(t.cand, no);
    ScheduleReplace(db, t, no, heldAt);
    WritePersists(db, k, Held(Read(db, k), t, no, heldAt));
  }

  lemma RejectPersists(db: Db, k: Key, now: Time, retry: int, stop: bool)
    requires RowsAt(db, k)
    ensures var e := RejectIntent(db, k, now, retry, stop); Persists(db, e) && Adds(db, e)
  {
    WritePersists(db, k, RefusedGraph(Read(db, k), HasOrder(db, k.cand), now, retry, stop));
  }

  lemma SiblingsPersist(db: Db, a: Candidate)
    ensures Persists(db, BlockSiblings(db, a)) && Adds(db, BlockSiblings(db, a))
  {}

  /** Two changes in one transaction, the second of which adds nothing. */
  lemma ThenPersists(d: Db, e: Db, f: Db)
    requires Persists(d, e) && Adds(d, e) && Persists(e, f) && f.intents == e.intents && f.orders == e.orders
    ensures Persists(d, f) && Adds(d, f)
  {
    PersistsTransitive(d, e, f);
  }

  lemma AttentionPersists(db: Db, k: Key, err: ErrorCode)
    requires GraphExists(db, k)
    ensures var e := IntentNeedsAttention(db, k, err); Persists(db, e) && Adds(db, e)
  {
    var w := Write(db, k, DoubtfulGraph(Read(db, k)));
    WritePersists(db, k, DoubtfulGraph(Read(db, k)));
    SiblingsPersist(w, db.cands[k.cand]);
    ThenPersists(db, w, BlockSiblings(w, db.cands[k.cand]));
  }

  lemma RecordPersists(db: Db, k: Key, o: Order, now: Time, newMsg: MsgId)
    requires RowsAt(db, k) && CandidateInv(db, db.cands[k.cand]) && newMsg !in db.msgs
    requires db.intents[k].state.Validated? && Payable(db.intents[k], o)
    ensures var e := RecordOrder(db, k, o, now, newMsg).0; Persists(db, e) && Adds(db, e)
  {
    RecordedShape(db, k, o, now, newMsg);
    var e := RecordOrder(db, k, o, now, newMsg).0;
    var w := Write(db, k, ConfirmedGraph(Read(db, k), o));
    WritePersists(db, k, ConfirmedGraph(Read(db, k), o));
    RecordedMessages(db, k, o, now, newMsg);
    assert Persists(w, e) by { NothingPersists(w); }
    ThenPersists(db, w, e);
  }

  lemma RecordedMessages(db: Db, k: Key, o: Order, now: Time, newMsg: MsgId)
    requires newMsg !in db.msgs
    ensures MessagesPersist(db.msgs, RecordOrder(db, k, o, now, newMsg).0.msgs)
  {}

  lemma WaitPersists(db: Db, t: Task, budget: bool, now: Time)
    ensures var e := ScheduleWait(db, t, budget, now); Persists(db, e) && Adds(db, e)
  {
    NothingPersists(db);
    if t.cand in db.cands { PutPersists(db, t.cand, Waiting(db.cands[t.cand], t, budget, now)); }
  }

  lemma MarkPersists(db: Db, t: Task)
    requires t.cand in db.cands
    ensures var e := MarkNeedsAttention(db, t); Persists(db, e) && Adds(db, e)
  {
    var a := db.cands[t.cand];
    var k := Key(t.cand, a.cycleNo);
    PutPersists(db, t.cand, Blocked(a));
    if GraphExists(db, k) { WritePersists(db, k, BlockedGraph(Read(db, k))); }
  }

  lemma DispatchedPersists(db: Db, t: Task, runNow: Time, v: Verdict)
    requires AllRows(db) && t.cand in db.cands && VerdictReady(db, t, v)
    ensures var e := Dispatched(db, t, runNow, v).0; Persists(db, e) && Adds(db, e)
  {
    var a := db.cands[t.cand];
    NothingPersists(db);
    match v
    case Hold(no, heldAt) =>
      assert RowsAt(db, Key(t.cand, no));
      HoldPersists(db, t, no, heldAt);
    case WaitFor(budget) => WaitPersists(db, t, budget, runNow);
    case Attention => MarkPersists(db, t);
    case Halt => PutPersists(db, t.cand, Halted(a));
    case Release => PutPersists(db, t.cand, a.(state := Queued, nextRunAt := None));
    case Nothing =>
  }

  lemma ReleasePersists(db: Db, now: Time)
    ensures Persists(db, ReleaseElapsed(db, now)) && Adds(db, ReleaseElapsed(db, now))
  {}

  lemma ClaimPersists(db: Db, now: Time, chosen: set<CandId>)
    ensures Persists(db, Claim(db, now, chosen)) && Adds(db, Claim(db, now, chosen))
  {
    var r := ReleaseElapsed(db, now);
    ReleasePersists(db, now);
    assert Steady(r, Claimed(r, now, chosen));
    SamePersists(r, Claimed(r, now, chosen));
    ThenPersists(db, r, Claimed(r, now, chosen));
  }

  lemma CycleBooking(db: Db, r: PlanRequest)
    requires r.cand in db.cands && r.WellFormed() && r.config.Valid()
    requires var k := NewKey(db, r); k !in db.cycles && k !in db.intents && k !in db.allocs
    ensures BookingPersists(db, WithCycle(db, r))
  {}

  lemma CycleSlots(db: Db, r: PlanRequest)
    requires r.cand in db.cands && r.WellFormed() && r.config.Valid()
    ensures var e := WithCycle(db, r);
      && (forall c :: c in db.cands ==> c in e.cands && SameSlot(db.cands[c], e.cands[c]))
      && e.subs == db.subs && e.msgs == db.msgs
  {}

  lemma CycleAdds(db: Db, r: PlanRequest)
    requires r.cand in db.cands && r.WellFormed() && r.config.Valid()
    ensures Adds(db, WithCycle(db, r))
  {}

  lemma CyclePersists(db: Db, r: PlanRequest)
    requires Tables(db) && r.cand in db.cands && r.WellFormed() && r.config.Valid()
    ensures Persists(db, WithCycle(db, r)) && Adds(db, WithCycle(db, r))
  {
    assert NewKey(db, r) !in db.cycles;
    CycleBooking(db, r);
    CycleSlots(db, r);
    CycleAdds(db, r);
  }

  lemma PlanPersists(db: Db, r: PlanRequest)
    requires Tables(db) && PlanReady(db, r)
    ensures Persists(db, Plan(db, r).0) && Adds(db, Plan(db, r).0)
  {
    NothingPersists(db);
    if Plan(db, r).1.Planned? {
      PlannedShape(db, r);
      CyclePersists(db, r);
    } else if r.cand in db.cands {
      UnplannedShape(db, r);
      PutPersists(db, r.cand, Plan(db, r).0.cands[r.cand]);
    } else {
      UnknownShape(db, r);
    }
  }

  lemma ActPersists(db: Db, x: Action)
    requires ValidSettings(db)
    ensures Persists(db, Act(db, x)) && Adds(db, Act(db, x))
  {
    ActGrows(db, x);
    if Grows(db, Act(db, x)) {
      GrowsSteady(db, Act(db, x));
      SamePersists(db, Act(db, x));
    } else {
      PutPersists(db, x.c, Halted(db.cands[x.c]));
    }
  }

  lemma DeliverPersists(db: Db, x: Delivery)
    ensures Persists(db, Deliver(db, x)) && Adds(db, Deliver(db, x))
  {
    DeliverMoves(db, x);
    NothingPersists(db);
  }

  // ----- steps

  lemma EvaluatePersists(s: Sys, e: Evaluation)
    requires Tables(s.db) && AllRows(s.db) && s.flight.Evaluating? && TaskReady(s.db, s.flight.task)
    requires Dated(s.db.cycles, s.flight.now)
    ensures Persists(s.db, Evaluate(s, e).db) && Adds(s.db, Evaluate(s, e).db)
  {
    hide Persists, Adds, Tables, AllRows, Plan, AfterPlan;
    NothingPersists(s.db);
    if Plans(s, e) {
      var f := s.flight;
      var r := PlanFor(s, f.task, f.now, f.version, e, Settings(s.db, f.task.cand));
      EvaluateShape(s, e);
      TaskPlanReady(s.db, f.task, r);
      PlanPersists(s.db, r);
    }
  }

  lemma AcceptedPersists(s: Sys, j: Job, o: Order, newMsg: MsgId)
    requires Tables(s.db) && AllRows(s.db) && JobReady(s, j) && j.phase == Settling(Accepted(o)) && newMsg !in s.db.msgs
    ensures Persists(s.db, Work(s, j, newMsg).db) && Adds(s.db, Work(s, j, newMsg).db)
  {
    hide Reservation, Progressing, Amounts, Work, RecordOrder, ConfirmedGraph;
    var k := j.key;
    assert RowsAt(s.db, k) && CandidateInv(s.db, s.db.cands[k.cand]);
    RecordedShape(s.db, k, o, RecordedAt(s, j), newMsg);
    AcceptedShape(s, j, o, newMsg);
    RecordPersists(s.db, k, o, RecordedAt(s, j), newMsg);
  }

  lemma RefusedPersists(s: Sys, j: Job, newMsg: MsgId)
    requires RowsAt(s.db, j.key) && j.phase.Settling? && j.phase.result.Refused?
    ensures Persists(s.db, Work(s, j, newMsg).db) && Adds(s.db, Work(s, j, newMsg).db)
  {
    hide RejectIntent, IntentNeedsAttention, Persists, Adds;
    var k := j.key;
    if j.phase.result.state.CheckoutRejected? {
      RejectPersists(s.db, k, j.now, j.task.retry, j.task.maxCycles.Some? && k.no >= j.task.maxCycles.value);
    } else {
      AttentionPersists(s.db, k, j.phase.result.error);
    }
  }

  lemma SettlingPersists(s: Sys, j: Job, newMsg: MsgId)
    requires Tables(s.db) && AllRows(s.db) && JobReady(s, j) && j.phase.Settling?
    ensures Persists(s.db, Work(s, j, newMsg).db) && Adds(s.db, Work(s, j, newMsg).db)
  {
    hide RecordOrder, RejectIntent, IntentNeedsAttention, Persists, Adds;
    assert RowsAt(s.db, j.key);
    if j.phase.result.Refused? { RefusedPersists(s, j, newMsg); }
    else if newMsg !in s.db.msgs { AcceptedPersists(s, j, j.phase.result.order, newMsg); }
    else { NothingPersists(s.db); }
  }

  lemma StagesPersist(s: Sys, j: Job, newMsg: MsgId)
    requires !j.phase.Settling?
    ensures Persists(s.db, Work(s, j, newMsg).db) && Adds(s.db, Work(s, j, newMsg).db)
  {
    NothingPersists(s.db);
    match j.phase
    case BeforeWrite => StagePersists(s.db, j.key, WriteStarted, s.clock);
    case Judged(stage, _) => StagePersists(s.db, j.key, stage, s.clock);
    case _ =>
  }

  lemma ReschedulePersists(s: Sys, k: Key, heldAt: Time, next: Flight)
    requires AllRows(s.db) && Tables(s.db) && RepairReady(s.db, k) && s.db.orders[k].heldAt == heldAt
    ensures Persists(s.db, Reschedule(s, k, heldAt, next).db) && Adds(s.db, Reschedule(s, k, heldAt, next).db)
  {
    hide Tables, CandidateInv;
    assert RowsAt(s.db, k);
    RepairIsSchedulable(s.db, k);
    HoldPersists(s.db, TaskOf(s.db, k), k.no, heldAt);
  }

  lemma FinalizePersists(s: Sys, k: Key, o: Order, rows: seq<Incomplete>, newMsg: MsgId)
    requires Tables(s.db) && AllRows(s.db) && FinalReady(s.db, k, o, rows) && newMsg !in s.db.msgs
    ensures Persists(s.db, Finalize(s, k, o, rows, newMsg).db) && Adds(s.db, Finalize(s, k, o, rows, newMsg).db)
  {
    hide RecordOrder, Persists, Adds, Progressing, Amounts, Reservation;
    assert RowsAt(s.db, k) && CandidateInv(s.db, s.db.cands[k.cand]);
    NothingPersists(s.db);
    RecordPersists(s.db, k, o, s.clock, newMsg);
  }

  lemma RepairPersists(s: Sys, keys: seq<Key>, newMsg: MsgId)
    requires Tables(s.db) && AllRows(s.db) && RepairsReady(s.db, keys) && s.flight == Rescheduling(keys) && keys != []
    ensures Persists(s.db, Advance(s, newMsg).db) && Adds(s.db, Advance(s, newMsg).db)
  {
    hide Work, Dispatch, Finalize, Reschedule;
    assert RepairReady(s.db, keys[0]);
    ReschedulePersists(s, keys[0], s.db.orders[keys[0]].heldAt, Rescheduling(keys[1..]));
  }

  lemma RecoveryPersists(s: Sys, newMsg: MsgId)
    requires Tables(s.db) && AllRows(s.db) && FlightInv(s) && !Booted(s.flight)
    ensures Persists(s.db, Advance(s, newMsg).db) && Adds(s.db, Advance(s, newMsg).db)
  {
    var f := s.flight;
    if f.Rescheduling? && f.keys != [] { RepairPersists(s, f.keys, newMsg); }
    else if f.Reconciling? && f.rows == [] { RecoverPersists(s.db); }
    else if f.Finalizing? && newMsg !in s.db.msgs { FinalizePersists(s, f.key, f.order, f.rows, newMsg); }
    else if f.FinalScheduling? { ReschedulePersists(s, f.key, f.heldAt, Reconciling(f.rows)); }
    else { NothingPersists(s.db); }
  }

  lemma RecoverPersists(db: Db)
    ensures Persists(db, RecoverClaims(db)) && Adds(db, RecoverClaims(db))
  {}

  lemma WorkPersists(s: Sys, j: Job, newMsg: MsgId)
    requires Tables(s.db) && AllRows(s.db) && JobReady(s, j)
    ensures Persists(s.db, Work(s, j, newMsg).db) && Adds(s.db, Work(s, j, newMsg).db)
  {
    hide *;
    if j.phase.Settling? { SettlingPersists(s, j, newMsg); } else { StagesPersist(s, j, newMsg); }
  }

  lemma LoopPersists(s: Sys, newMsg: MsgId)
    requires Booted(s.flight) && !s.flight.Working? && !s.flight.Dispatching?
    ensures Persists(s.db, Advance(s, newMsg).db) && Adds(s.db, Advance(s, newMsg).db)
  {
    hide Work, Dispatch, Finalize, Reschedule;
    assert Advance(s, newMsg).db == s.db;
    NothingPersists(s.db);
  }

  lemma AdvancePersists(s: Sys, newMsg: MsgId)
    requires Tables(s.db) && AllRows(s.db) && FlightInv(s)
    ensures Persists(s.db, Advance(s, newMsg).db) && Adds(s.db, Advance(s, newMsg).db)
  {
    var f := s.flight;
    if !Booted(f) { RecoveryPersists(s, newMsg); }
    else if f.Working? { WorkPersists(s, f.job, newMsg); }
    else if f.Dispatching? { DispatchedPersists(s.db, f.task, f.origin.runNow, f.verdict); }
    else { LoopPersists(s, newMsg); }
  }

  lemma LookedPersists(s: Sys, lookup: Lookup)
    requires s.flight.Reconciling? && s.flight.rows != [] && RowReady(s.db, s.flight.rows[0])
    ensures var e := Reconcile(s, s.flight.rows, lookup).db; Persists(s.db, e) && Adds(s.db, e)
  {
    var k := s.flight.rows[0].key;
    ReconcileShape(s, s.flight.rows, lookup);
    ApplyPersists(s.db, k, Decide(s.db, s.paymentHost, k, s.flight.rows[0].started, lookup));
  }

  lemma ClaimRunPersists(s: Sys, runNow: Time, chosen: set<CandId>, tasks: seq<Task>)
    ensures var e := ClaimRun(s, runNow, chosen, tasks).db; Persists(s.db, e) && Adds(s.db, e)
  {
    if ClaimRun(s, runNow, chosen, tasks) == s { NothingPersists(s.db); } else { ClaimPersists(s.db, runNow, chosen); }
  }

  /** The event may commit something in this state. */
  predicate Commits(f: Flight, e: Event) {
    || e.Proceed? || e.Outside? || e.Outbox? || (e.Evaluated? && f.Evaluating?) || (e.ClaimDue? && f.Claiming?)
    || (e.Looked? && f.Reconciling? && f.rows != [])
  }

  lemma IdlePersists(s: Sys, e: Event)
    requires !Commits(s.flight, e)
    ensures Persists(s.db, Step(s, e).db) && Adds(s.db, Step(s, e).db)
  {
    hide Advance, Evaluate, Reconcile, ClaimRun, Act, Deliver, JudgeAnswer;
    assert Step(s, e).db == s.db;
    NothingPersists(s.db);
  }

  lemma AnsweredPersists(s: Sys, e: Event)
    requires Tables(s.db) && AllRows(s.db) && FlightInv(s) && TimeInv(s) && Commits(s.flight, e)
    requires !e.Proceed? && !e.Outside? && !e.Outbox?
    ensures Persists(s.db, Step(s, e).db) && Adds(s.db, Step(s, e).db)
  {
    hide Advance, Evaluate, Reconcile, ClaimRun, Act, Deliver, JudgeAnswer, Persists, Adds, Tables, AllRows, Plan;
    if e.Evaluated? { EvaluatePersists(s, e.evaluation); }
    else if e.Looked? { LookedPersists(s, e.lookup); }
    else { ClaimRunPersists(s, s.flight.runNow, e.chosen, e.tasks); }
  }

  lemma StepPersists(s: Sys, e: Event)
    requires Tables(s.db) && AllRows(s.db) && FlightInv(s) && TimeInv(s)
    ensures Persists(s.db, Step(s, e).db) && Adds(s.db, Step(s, e).db)
  {
    hide Advance, Evaluate, Reconcile, ClaimRun, Act, Deliver, JudgeAnswer, Persists, Adds, AllRows, FlightInv, TimeInv;
    if e.Proceed? { AdvancePersists(s, e.newMsg); }
    else if e.Outside? { ActPersists(s.db, e.action); }
    else if e.Outbox? { DeliverPersists(s.db, e.delivery); }
    else if !Commits(s.flight, e) { IdlePersists(s, e); }
    else { AnsweredPersists(s, e); }
  }

  lemma RunStepPersists(live: bool, paymentHost: string, events: seq<Event>, e: Event)
    ensures var s := Run(Start(live, paymentHost), events); Persists(s.db, Step(s, e).db) && Adds(s.db, Step(s, e).db)
  {
    hide Step, Run;
    RunKeeps(live, paymentHost, events);
    StepPersists(Run(Start(live, paymentHost), events), e);
  }

  /**
   Over any continuation of any run: no order, due time, release or final message is ever changed, no request
   of a checkout differs from the one first planned, and no reservation comes back.
   */
  lemma {:induction false} RunPersists(live: bool, paymentHost: string, first: seq<Event>, more: seq<Event>)
    ensures Persists(Run(Start(live, paymentHost), first).db, Run(Start(live, paymentHost), first + more).db)
  {
    hide Step, Persists;
    var s := Run(Start(live, paymentHost), first);
    if more == [] {
      assert first + more == first;
      NothingPersists(s.db);
    } else {
      var all := first + more;
      var before := more[..|more| - 1];
      assert all[..|all| - 1] == first + before;
      RunPersists(live, paymentHost, first, before);
      RunStepPersists(live, paymentHost, first + before, all[|all| - 1]);
      PersistsTransitive(s.db, Run(Start(live, paymentHost), first + before).db, Run(Start(live, paymentHost), all).db);
    }
  }
}
