/** The steps of the booking thread that change the tables keep the engine's invariant. */
module EngineSteps {
  import opened Wrappers
  import opened Rows
  import opened Planning
  import opened Scheduling
  import opened Checkout
  import opened Environment
  import opened Mailbox
  import opened Engine
  import opened Invariants
  import opened Preservation
  import opened PlanProof
  import opened EngineInv
  import opened EngineProof

  /** The rows of every known candidate but `c` are as before. */
  ghost predicate OnlyAt(d: Db, e: Db, c: CandId) {
    forall b :: b in d.cands && b != c ==> Untouched(d, e, b)
  }

  lemma WriteOnlyAt(db: Db, k: Key, g: Graph)
    ensures OnlyAt(db, Write(db, k, g), k.cand)
  {}

  // ----- recovery

  lemma DecideSound(s: Sys, k: Key, started: bool, lookup: Lookup)
    requires k in s.db.intents && k.cand in s.db.cands && started == s.db.intents[k].writeStartedAt.Some?
    ensures var d := Decide(s.db, s.paymentHost, k, started, lookup);
      d.ConfirmFound? ==> Payable(s.db.intents[k], d.order) && s.db.intents[k].writeStartedAt.Some?
  {
    if started && lookup.Found? { ValidatedIsPayable(s.db, k, lookup.o, s.paymentHost); }
  }

  /** An authorisation is logged after the opening it belongs to. */
  lemma LogAuthorised(log: seq<LogEntry>, k: Key)
    requires Opened(k) in log
    ensures AuthorisedIn(log + [Authorised(k)], k)
  {
    var i :| 0 <= i < |log| && log[i] == Opened(k);
    assert (log + [Authorised(k)])[i] == Opened(k) && (log + [Authorised(k)])[|log|] == Authorised(k);
  }

  lemma MoreLog(log: seq<LogEntry>, x: LogEntry)
    ensures forall k :: AuthorisedIn(log, k) ==> AuthorisedIn(log + [x], k)
    ensures forall y :: y in log ==> y in log + [x]
  {
    forall k | AuthorisedIn(log, k) ensures AuthorisedIn(log + [x], k) { GrowLog(log, x, k); }
  }

  lemma WriteLogged(log: seq<LogEntry>, x: LogEntry)
    requires WritesAuthorised(log) && (x.Wrote? && x in log ==> AuthorisedIn(log, x.key))
    ensures WritesAuthorised(log + [x])
  {
    var l := log + [x];
    forall i, j, k | 0 <= i < j < |l| && l[i] == Wrote(k) && l[j] == Wrote(k) ensures AuthorisedIn(l[..j], k) {
      if j < |log| { assert l[..j] == log[..j]; } else { assert l[..j] == log; assert log[i] == Wrote(k); }
    }
  }

  lemma ResolvedMarks(db: Db, k: Key, d: Disposition, log: seq<LogEntry>)
    requires GraphExists(db, k) && LogMarks(db.intents, log)
    ensures var l := if d.AllowRetry? && db.intents[k].writeStartedAt.Some? then log + [Authorised(k)] else log;
      LogMarks(ApplyRecovery(db, k, d).intents, l)
  {
    if d.AllowRetry? && db.intents[k].writeStartedAt.Some? {
      LogAuthorised(log, k);
      MoreLog(log, Authorised(k));
    }
  }

  lemma TailRows(d: Db, e: Db, rows: seq<Incomplete>)
    requires rows != [] && RowsReady(d, rows) && OnlyAt(d, e, rows[0].key.cand)
    ensures RowsReady(e, rows[1..]) && forall i :: 0 <= i < |rows[1..]| ==> rows[1..][i].key.cand != rows[0].key.cand
  {}

  lemma ReconcileShape(s: Sys, rows: seq<Incomplete>, lookup: Lookup)
    requires rows != [] && RowReady(s.db, rows[0])
    ensures var k := rows[0].key; var d := Decide(s.db, s.paymentHost, k, rows[0].started, lookup); var u := Reconcile(s, rows, lookup);
      && u == s.(db := ApplyRecovery(s.db, k, d), flight := u.flight, log := u.log)
      && u.flight == (if d.ConfirmFound? then Finalizing(k, d.order, rows[1..]) else Reconciling(rows[1..]))
      && u.log == (if d.AllowRetry? && s.db.intents[k].writeStartedAt.Some? then s.log + [Authorised(k)] else s.log)
  {}

  lemma HeadRow(db: Db, rows: seq<Incomplete>)
    requires Tables(db) && rows != [] && RowsReady(db, rows)
    ensures RowReady(db, rows[0]) && GraphExists(db, rows[0].key)
    ensures rows[0].started == db.intents[rows[0].key].writeStartedAt.Some?
  {}

  lemma ResolvedReady(db: Db, rows: seq<Incomplete>, d: Disposition, mark: Time)
    requires Tables(db) && rows != [] && RowsReady(db, rows) && Dated(db.cycles, mark)
    requires d.ConfirmFound? ==> rows[0].key in db.intents && Payable(db.intents[rows[0].key], d.order)
    ensures var k := rows[0].key; var e := ApplyRecovery(db, k, d);
      && RowsReady(e, rows[1..]) && Dated(e.cycles, mark) && (d.ConfirmFound? ==> FinalReady(e, k, d.order, rows[1..]))
  {
    hide RowsReady, RowReady, Tables, ApplyRecovery, FinalReady, Dated;
    HeadRow(db, rows);
    ResolvedOnlyAt(db, rows[0].key, d, mark);
    TailRows(db, ApplyRecovery(db, rows[0].key, d), rows);
    if d.ConfirmFound? { ResolvedFinal(db, rows, d); }
  }

  lemma ResolvedOnlyAt(db: Db, k: Key, d: Disposition, mark: Time)
    requires GraphExists(db, k) && Dated(db.cycles, mark)
    ensures OnlyAt(db, ApplyRecovery(db, k, d), k.cand) && Dated(ApplyRecovery(db, k, d).cycles, mark)
  {
    hide OnlyAt;
    WriteOnlyAt(db, k, Resolved(Read(db, k), d));
  }

  lemma ResolvedFinal(db: Db, rows: seq<Incomplete>, d: Disposition)
    requires rows != [] && RowReady(db, rows[0]) && GraphExists(db, rows[0].key) && d.ConfirmFound?
    requires Payable(db.intents[rows[0].key], d.order)
    requires var e := ApplyRecovery(db, rows[0].key, d);
      RowsReady(e, rows[1..]) && forall i :: 0 <= i < |rows[1..]| ==> rows[1..][i].key.cand != rows[0].key.cand
    ensures FinalReady(ApplyRecovery(db, rows[0].key, d), rows[0].key, d.order, rows[1..])
  {
    hide RowsReady;
  }

  lemma ReconcileSide(s: Sys, rows: seq<Incomplete>, lookup: Lookup)
    requires Tables(s.db) && Side(s) && s.flight == Reconciling(rows) && rows != []
    ensures Side(Reconcile(s, rows, lookup))
  {
    hide Reconcile, Decide, ApplyRecovery, FinalReady, RowsReady, RowReady, Payable;
    var k := rows[0].key;
    HeadRow(s.db, rows);
    ReconcileShape(s, rows, lookup);
    var d := Decide(s.db, s.paymentHost, k, rows[0].started, lookup);
    DecideSound(s, k, rows[0].started, lookup);
    ResolvedReady(s.db, rows, d, s.mark);
    ResolvedMarks(s.db, k, d, s.log);
    WriteLogged(s.log, Authorised(k));
  }

  lemma ReconcileKeeps(s: Sys, rows: seq<Incomplete>, lookup: Lookup)
    requires Inv(s.db) && rows != [] && RowReady(s.db, rows[0])
    ensures Inv(Reconcile(s, rows, lookup).db)
  {
    var k := rows[0].key;
    ReconcileShape(s, rows, lookup);
    DecideSound(s, k, rows[0].started, lookup);
    ApplyKeeps(s.db, k, Decide(s.db, s.paymentHost, k, rows[0].started, lookup));
  }

  // ----- claiming

  lemma ClaimedReady(db: Db, now: Time, chosen: set<CandId>, t: Task)
    requires AllRows(db) && db.allocs.Keys == db.cycles.Keys && Due(db, t.cand, now) && Claims(db, now, chosen, t)
    ensures TaskReady(Claim(db, now, chosen), t)
  {
    DueIsAtRest(db, now, t.cand);
    var e := Claim(db, now, chosen);
    forall k | k in e.allocs && k.cand == t.cand ensures !e.allocs[k].active {
      assert e.allocs[k] == ReleaseElapsed(db, now).allocs[k];
    }
  }

  lemma ClaimTasksReady(db: Db, now: Time, chosen: set<CandId>, tasks: seq<Task>)
    requires AllRows(db) && db.allocs.Keys == db.cycles.Keys && ClaimedTasks(db, now, chosen, tasks)
    requires forall c :: c in chosen ==> Due(db, c, now)
    ensures TasksReady(Claim(db, now, chosen), tasks)
  {
    forall i | 0 <= i < |tasks| ensures TaskReady(Claim(db, now, chosen), tasks[i]) {
      ClaimedReady(db, now, chosen, tasks[i]);
    }
  }

  lemma ClaimReleased(db: Db, now: Time, chosen: set<CandId>, mark: Time)
    requires Dated(db.cycles, mark) && now <= mark
    ensures Dated(Claim(db, now, chosen).cycles, mark) && Claim(db, now, chosen).intents == db.intents
  {}

  lemma ClaimSide(s: Sys, runNow: Time, chosen: set<CandId>, tasks: seq<Task>)
    requires Tables(s.db) && AllRows(s.db) && Side(s) && s.flight == Claiming(runNow)
    ensures Side(ClaimRun(s, runNow, chosen, tasks))
  {
    if ClaimRun(s, runNow, chosen, tasks) != s {
      ClaimTasksReady(s.db, runNow, chosen, tasks);
      ClaimReleased(s.db, runNow, chosen, s.mark);
    }
  }

  lemma ClaimRunKeeps(s: Sys, runNow: Time, chosen: set<CandId>, tasks: seq<Task>)
    requires Inv(s.db)
    ensures Inv(ClaimRun(s, runNow, chosen, tasks).db)
  {
    if forall c :: c in chosen ==> Due(s.db, c, runNow) { ClaimKeeps(s.db, runNow, chosen); }
  }

  // ----- repairing

  lemma RepairIsSchedulable(db: Db, k: Key)
    requires RepairReady(db, k)
    ensures Schedulable(db, TaskOf(db, k), k.no, db.orders[k].heldAt)
  {}

  lemma TailRepairs(d: Db, e: Db, ks: seq<Key>)
    requires ks != [] && RepairsReady(d, ks) && OnlyAt(d, e, ks[0].cand)
    ensures RepairsReady(e, ks[1..])
  {}

  /** A repair is never turned away: the cycle it is made for is the candidate's current one. */
  lemma RescheduleShape(s: Sys, k: Key, heldAt: Time, next: Flight)
    requires RowsAt(s.db, k) && RepairReady(s.db, k) && s.db.orders[k].heldAt == heldAt
    ensures Reschedule(s, k, heldAt, next)
         == To(s, Write(s.db, k, Held(Read(s.db, k), TaskOf(s.db, k), k.no, heldAt)), next)
  {}

  lemma RescheduleKeeps(s: Sys, k: Key, heldAt: Time, next: Flight)
    requires Inv(s.db) && RepairReady(s.db, k) && s.db.orders[k].heldAt == heldAt
    ensures Inv(Reschedule(s, k, heldAt, next).db)
  {
    hide Tables, CandidateInv, Caps, Timing, SeatsDiffer, Mail, Reservation, Progressing, Amounts;
    RepairIsSchedulable(s.db, k);
    ScheduleKeeps(s.db, TaskOf(s.db, k), k.no, heldAt);
  }

  lemma HeldMarks(db: Db, k: Key, t: Task, heldAt: Time)
    requires GraphExists(db, k) && k.no >= 1
    ensures var e := Write(db, k, Held(Read(db, k), t, k.no, heldAt));
      && e.intents == db.intents
      && (forall j :: j in db.cycles ==> j in e.cycles && SameTimes(db.cycles[j], e.cycles[j]))
      && e.cycles.Keys == db.cycles.Keys
  {}

  lemma RescheduleSide(s: Sys, k: Key, heldAt: Time, next: Flight)
    requires RowsAt(s.db, k) && Side(s) && RepairReady(s.db, k) && s.db.orders[k].heldAt == heldAt
    requires FlightInv(Reschedule(s, k, heldAt, next))
    ensures Side(Reschedule(s, k, heldAt, next))
  {
    RescheduleShape(s, k, heldAt, next);
    HeldMarks(s.db, k, TaskOf(s.db, k), heldAt);
  }

  lemma RepairSide(s: Sys, newMsg: MsgId)
    requires AllRows(s.db) && Tables(s.db) && Side(s) && s.flight.Rescheduling?
    ensures Side(Advance(s, newMsg))
  {
    var keys := s.flight.keys;
    if keys != [] {
      var k := keys[0];
      assert RepairReady(s.db, k) && RowsAt(s.db, k);
      var heldAt := s.db.orders[k].heldAt;
      RescheduleShape(s, k, heldAt, Rescheduling(keys[1..]));
      var h := Held(Read(s.db, k), TaskOf(s.db, k), k.no, heldAt);
      WriteOnlyAt(s.db, k, h);
      TailRepairs(s.db, Write(s.db, k, h), keys);
      RescheduleSide(s, k, heldAt, Rescheduling(keys[1..]));
    }
  }

  lemma FinalScheduleSide(s: Sys, k: Key, heldAt: Time, rows: seq<Incomplete>)
    requires AllRows(s.db) && Tables(s.db) && Side(s) && s.flight == FinalScheduling(k, heldAt, rows)
    ensures Side(Reschedule(s, k, heldAt, Reconciling(rows)))
  {
    assert RowsAt(s.db, k);
    RescheduleShape(s, k, heldAt, Reconciling(rows));
    var h := Held(Read(s.db, k), TaskOf(s.db, k), k.no, heldAt);
    WriteOnlyAt(s.db, k, h);
    OtherRows(s.db, Write(s.db, k, h), rows, k.cand);
    RescheduleSide(s, k, heldAt, Reconciling(rows));
  }

  lemma OtherRows(d: Db, e: Db, rows: seq<Incomplete>, c: CandId)
    requires RowsReady(d, rows) && OnlyAt(d, e, c) && forall i :: 0 <= i < |rows| ==> rows[i].key.cand != c
    ensures RowsReady(e, rows)
  {}

  // ----- recording an order

  /** A validated order is recorded; the new order is scheduled next. */
  lemma RecordedShape(db: Db, k: Key, o: Order, now: Time, newMsg: MsgId)
    requires RowsAt(db, k) && CandidateInv(db, db.cands[k.cand]) && newMsg !in db.msgs
    requires db.intents[k].state.Validated? && Payable(db.intents[k], o)
    ensures var (e, outcome) := RecordOrder(db, k, o, now, newMsg); var w := Write(db, k, ConfirmedGraph(Read(db, k), o));
      outcome == Recorded(newMsg) && e == w.(msgs := e.msgs)
  {}

  lemma RecordedOnlyAt(db: Db, k: Key, o: Order, now: Time, newMsg: MsgId)
    requires RowsAt(db, k) && CandidateInv(db, db.cands[k.cand]) && newMsg !in db.msgs
    requires db.intents[k].state.Validated? && Payable(db.intents[k], o)
    ensures OnlyAt(db, RecordOrder(db, k, o, now, newMsg).0, k.cand)
  {}

  lemma RecordedRepair(db: Db, k: Key, o: Order, now: Time, newMsg: MsgId)
    requires RowsAt(db, k) && CandidateInv(db, db.cands[k.cand]) && newMsg !in db.msgs && HasTask(db, k)
    requires db.intents[k].state.Validated? && Payable(db.intents[k], o)
    ensures var e := RecordOrder(db, k, o, now, newMsg).0;
      && RepairReady(e, k) && e.orders[k].heldAt == o.heldAt && TaskOf(e, k) == TaskOf(db, k)
      && RepairReady(e, k) && k.cand in e.cands
  {}

  /** Recording leaves write marks and release times alone. */
  lemma RecordedMarks(db: Db, k: Key, o: Order, now: Time, newMsg: MsgId)
    requires RowsAt(db, k) && CandidateInv(db, db.cands[k.cand]) && newMsg !in db.msgs
    requires db.intents[k].state.Validated? && Payable(db.intents[k], o)
    ensures var e := RecordOrder(db, k, o, now, newMsg).0;
      && MarksKept(db.intents, e.intents) && e.cycles.Keys == db.cycles.Keys
      && (forall j :: j in db.cycles ==> SameTimes(db.cycles[j], e.cycles[j]))
  {}

  lemma FinalizeReady(db: Db, k: Key, o: Order, rows: seq<Incomplete>, now: Time, newMsg: MsgId)
    requires AllRows(db) && Tables(db) && FinalReady(db, k, o, rows) && newMsg !in db.msgs
    ensures var (e, outcome) := RecordOrder(db, k, o, now, newMsg);
      && outcome.Recorded? && FinalRepairReady(e, k, o.heldAt, rows) && MarksKept(db.intents, e.intents)
      && e.cycles.Keys == db.cycles.Keys
      && (forall j :: j in db.cycles ==> SameTimes(db.cycles[j], e.cycles[j]))
  {
    assert RowsAt(db, k) && CandidateInv(db, db.cands[k.cand]);
    RecordedShape(db, k, o, now, newMsg);
    RecordedOnlyAt(db, k, o, now, newMsg);
    RecordedRepair(db, k, o, now, newMsg);
    RecordedMarks(db, k, o, now, newMsg);
    OtherRows(db, RecordOrder(db, k, o, now, newMsg).0, rows, k.cand);
  }

  lemma FinalizeSide(s: Sys, k: Key, o: Order, rows: seq<Incomplete>, newMsg: MsgId)
    requires AllRows(s.db) && Tables(s.db) && Side(s) && s.flight == Finalizing(k, o, rows) && newMsg !in s.db.msgs
    ensures Side(Finalize(s, k, o, rows, newMsg))
  {
    hide RecordOrder, Tables, AllRows, FinalReady, FinalRepairReady;
    FinalizeReady(s.db, k, o, rows, s.clock, newMsg);
    MarksLog(s.db.intents, RecordOrder(s.db, k, o, s.clock, newMsg).0.intents, s.log);
  }

  lemma FinalizeKeeps(s: Sys, k: Key, o: Order, rows: seq<Incomplete>, newMsg: MsgId)
    requires Inv(s.db) && FinalReady(s.db, k, o, rows) && newMsg !in s.db.msgs
    ensures Inv(Finalize(s, k, o, rows, newMsg).db)
  {
    hide Inv, RecordOrder;
    InvRow(s.db, k);
    RecordKeeps(s.db, k, o, s.clock, newMsg);
  }
}
