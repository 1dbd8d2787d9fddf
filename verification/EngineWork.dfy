/** The steps of one checkout, and what its loop does with the outcome, keep the engine's invariant. */
module EngineWork {
  import opened Wrappers
  import opened Rows
  import opened Planning
  import opened Scheduling
  import opened Checkout
  import opened Engine
  import opened Invariants
  import opened Preservation
  import opened EngineInv
  import opened EngineProof
  import opened EngineSteps
  import opened EnginePlan

  // ----- stages

  lemma StagedShape(db: Db, k: Key, stage: Stage, now: Time)
    requires GraphExists(db, k)
    ensures var e := RecordStage(db, k, stage, now);
      && e.intents == db.intents[k := Staged(db.intents[k], stage, now)]
      && e.cycles == db.cycles && e.allocs == db.allocs && e.cands == db.cands && e.subs == db.subs
      && GraphExists(e, k) && OnlyAt(db, e, k.cand)
  {}

  /** The job goes on to its next phase once a stage is recorded. */
  lemma StagedJob(s: Sys, j: Job, stage: Stage, next: Phase, log: seq<LogEntry>)
    requires JobReady(s, j) && PhaseReady(Staged(s.db.intents[j.key], stage, s.clock), next)
    requires next.WriteRecorded? && Wrote(j.key) in log ==> AuthorisedIn(log, j.key)
    requires s.live && (next.Settling? ==> !Staged(s.db.intents[j.key], stage, s.clock).state.RetryAllowed?)
    ensures JobReady(To(s, RecordStage(s.db, j.key, stage, s.clock), Working(j.(phase := next))).(log := log), j.(phase := next))
  {}

  lemma OpenedMarks(db: Db, k: Key, log: seq<LogEntry>, now: Time)
    requires GraphExists(db, k) && LogMarks(db.intents, log)
    ensures LogMarks(RecordStage(db, k, WriteStarted, now).intents, log + [Opened(k)])
  {
    StagedShape(db, k, WriteStarted, now);
    MoreLog(log, Opened(k));
    assert (log + [Opened(k)])[|log|] == Opened(k);
  }

  lemma BeforeWriteSide(s: Sys, j: Job, newMsg: MsgId)
    requires AllRows(s.db) && Tables(s.db) && Side(s) && s.flight == Working(j) && j.phase.BeforeWrite? && s.live
    ensures Side(Work(s, j, newMsg))
  {
    hide AllRows, Tables, CandidateInv, RowsAt, RowInv, WritesAuthorised, LogMarks, JobReady, RecordStage;
    OpenedReady(s, j);
    StagedShape(s.db, j.key, WriteStarted, s.clock);
    OpenedMarks(s.db, j.key, s.log, s.clock);
    WriteLogged(s.log, Opened(j.key));
  }

  lemma OpenedReady(s: Sys, j: Job)
    requires AllRows(s.db) && Side(s) && s.flight == Working(j) && j.phase.BeforeWrite? && s.live
    ensures GraphExists(s.db, j.key)
    ensures JobReady(To(s, RecordStage(s.db, j.key, WriteStarted, s.clock), Working(j.(phase := WriteRecorded))).(log := s.log + [Opened(j.key)]),
              j.(phase := WriteRecorded))
  {
    hide WritesAuthorised, RecordStage;
    assert RowsAt(s.db, j.key);
    var log := s.log + [Opened(j.key)];
    MoreLog(s.log, Opened(j.key));
    if Wrote(j.key) in log { assert Wrote(j.key) in s.log; }
    StagedJob(s, j, WriteStarted, WriteRecorded, log);
  }

  lemma DrySide(s: Sys, j: Job, newMsg: MsgId)
    requires Side(s) && s.flight == Working(j) && j.phase.BeforeWrite? && !s.live
    ensures Side(Work(s, j, newMsg))
  {}

  lemma WroteMarks(intents: map<Key, Intent>, log: seq<LogEntry>, k: Key)
    requires LogMarks(intents, log) && k in intents && intents[k].writeStartedAt.Some?
    ensures LogMarks(intents, log + [Wrote(k)])
  {
    MoreLog(log, Wrote(k));
  }

  lemma WriteSide(s: Sys, j: Job, newMsg: MsgId)
    requires AllRows(s.db) && Tables(s.db) && Side(s) && s.flight == Working(j) && j.phase.WriteRecorded?
    ensures Side(Work(s, j, newMsg))
  {
    assert RowsAt(s.db, j.key);
    WroteMarks(s.db.intents, s.log, j.key);
    WriteLogged(s.log, Wrote(j.key));
  }

  lemma StagedMarks(db: Db, k: Key, stage: Stage, now: Time)
    requires GraphExists(db, k) && !stage.WriteStarted?
    ensures MarksKept(db.intents, RecordStage(db, k, stage, now).intents)
  {}

  lemma JudgedSide(s: Sys, j: Job, newMsg: MsgId)
    requires Side(s) && s.flight == Working(j) && j.phase.Judged?
    ensures Side(Work(s, j, newMsg))
  {
    StagedJob(s, j, j.phase.stage, Settling(j.phase.result), s.log);
    StagedShape(s.db, j.key, j.phase.stage, s.clock);
    StagedMarks(s.db, j.key, j.phase.stage, s.clock);
    MarksLog(s.db.intents, RecordStage(s.db, j.key, j.phase.stage, s.clock).intents, s.log);
  }

  lemma StagesKeep(s: Sys, j: Job, newMsg: MsgId)
    requires Inv(s.db) && JobReady(s, j) && !j.phase.Settling?
    ensures Inv(Work(s, j, newMsg).db)
  {
    hide Tables, CandidateInv, Caps, Timing, SeatsDiffer, Mail;
    assert RowsAt(s.db, j.key);
    match j.phase
    case BeforeWrite => StageKeeps(s.db, j.key, WriteStarted, s.clock);
    case Judged(stage, _) => StageKeeps(s.db, j.key, stage, s.clock);
    case _ =>
  }

  // ----- the outcome

  /** The tables after the transaction that settles a checkout. */
  ghost predicate Settles(s: Sys, u: Sys, c: CandId) {
    && OnlyAt(s.db, u.db, c) && MarksKept(s.db.intents, u.db.intents) && Dated(u.db.cycles, s.mark)
    && u == s.(db := u.db, flight := u.flight)
  }

  lemma SettledSide(s: Sys, u: Sys, j: Job)
    requires Side(s) && JobReady(s, j) && Settles(s, u, j.key.cand) && FlightInv(u)
    ensures Side(u)
  {}

  /** A validated order is always recorded, and its cycle may be scheduled. */
  lemma AcceptedReady(db: Db, k: Key, o: Order, now: Time, newMsg: MsgId, mark: Time)
    requires AllRows(db) && Tables(db) && k in db.intents && db.intents[k].state.Validated? && Payable(db.intents[k], o)
    requires newMsg !in db.msgs && HasTask(db, k) && Dated(db.cycles, mark)
    ensures var (e, outcome) := RecordOrder(db, k, o, now, newMsg);
      && outcome == Recorded(newMsg) && OnlyAt(db, e, k.cand) && MarksKept(db.intents, e.intents) && Dated(e.cycles, mark)
      && Schedulable(e, TaskOf(db, k), k.no, o.heldAt) && k.cand in e.cands
  {
    assert RowsAt(db, k) && CandidateInv(db, db.cands[k.cand]);
    RecordedShape(db, k, o, now, newMsg);
    RecordedOnlyAt(db, k, o, now, newMsg);
    RecordedRepair(db, k, o, now, newMsg);
    RecordedMarks(db, k, o, now, newMsg);
    RepairIsSchedulable(RecordOrder(db, k, o, now, newMsg).0, k);
  }

  lemma AcceptedShape(s: Sys, j: Job, o: Order, newMsg: MsgId)
    requires j.phase == Settling(Accepted(o)) && newMsg !in s.db.msgs
    requires RecordOrder(s.db, j.key, o, RecordedAt(s, j), newMsg).1 == Recorded(newMsg)
    ensures Work(s, j, newMsg)
         == To(s, RecordOrder(s.db, j.key, o, RecordedAt(s, j), newMsg).0, Dispatching(j.task, j.origin, Hold(j.key.no, o.heldAt)))
  {}

  lemma HoldSide(s: Sys, e: Db, j: Job, o: Order)
    requires Side(s) && JobReady(s, j)
    requires OnlyAt(s.db, e, j.key.cand) && MarksKept(s.db.intents, e.intents) && Dated(e.cycles, s.mark)
    requires Schedulable(e, j.task, j.key.no, o.heldAt) && j.key.cand in e.cands
    ensures Side(To(s, e, Dispatching(j.task, j.origin, Hold(j.key.no, o.heldAt))))
  {}

  lemma AcceptedSide(s: Sys, j: Job, o: Order, newMsg: MsgId)
    requires AllRows(s.db) && Tables(s.db) && Side(s) && JobReady(s, j)
    requires j.phase == Settling(Accepted(o)) && newMsg !in s.db.msgs
    ensures Side(Work(s, j, newMsg))
  {
    hide Work, RecordOrder, ConfirmedGraph;
    AcceptedReady(s.db, j.key, o, RecordedAt(s, j), newMsg, s.mark);
    AcceptedShape(s, j, o, newMsg);
    HoldSide(s, RecordOrder(s.db, j.key, o, RecordedAt(s, j), newMsg).0, j, o);
  }

  lemma RefusedShape(db: Db, k: Key, now: Time, retry: int, stop: bool, mark: Time)
    requires GraphExists(db, k) && Dated(db.cycles, mark) && now <= mark
    ensures var e := RejectIntent(db, k, now, retry, stop);
      && OnlyAt(db, e, k.cand) && MarksKept(db.intents, e.intents) && Dated(e.cycles, mark)
      && k.cand in e.cands && e.cands[k.cand].cycleNo == db.cands[k.cand].cycleNo
  {}

  lemma RefusedSide(s: Sys, j: Job, newMsg: MsgId)
    requires Side(s) && s.flight == Working(j)
    requires j.phase.Settling? && j.phase.result.Refused? && j.phase.result.state.CheckoutRejected?
    ensures Side(Work(s, j, newMsg))
  {
    hide RejectIntent, IntentNeedsAttention, RefusedGraph, RecordOrder, NoOpenHold, WritesAuthorised, LogMarks, OnlyAt, MarksKept;
    var k := j.key;
    var stop := j.task.maxCycles.Some? && k.no >= j.task.maxCycles.value;
    RefusedShape(s.db, k, j.now, j.task.retry, stop, s.mark);
    var u := Work(s, j, newMsg);
    RestOfRenewal(s, u, j.origin, k.cand);
    SettledSide(s, u, j);
  }

  lemma SiblingsOnlyAt(db: Db, k: Key, h: Graph, a: Candidate)
    ensures OnlyAt(db, BlockSiblings(Write(db, k, h), a), k.cand)
  {}

  lemma DoubtfulShape(db: Db, k: Key, e: ErrorCode)
    requires GraphExists(db, k)
    ensures var d := IntentNeedsAttention(db, k, e); var h := DoubtfulGraph(Read(db, k));
      && OnlyAt(db, d, k.cand)
      && d.intents == db.intents[k := h.intent] && d.cycles == db.cycles[k := h.cycle]
      && (h.order == OrderAt(db, k) ==> d.orders == db.orders)
      && k.cand in d.cands && (forall mark :: Dated(db.cycles, mark) ==> Dated(d.cycles, mark))
      && MarksKept(db.intents, d.intents)
  {
    var h := DoubtfulGraph(Read(db, k));
    WriteOnlyAt(db, k, h);
    SiblingsOnlyAt(db, k, h, db.cands[k.cand]);
  }

  /** The candidate's other cycles are at rest, and the doubtful one has no order. */
  lemma DoubtfulUnblocked(db: Db, k: Key, e: ErrorCode)
    requires AllRows(db) && GraphExists(db, k) && k in db.cycles && !Settled(db.intents[k].state)
    requires db.cands[k.cand].cycleNo == k.no
    ensures NoOpenHold(IntentNeedsAttention(db, k, e), k.cand)
  {}

  lemma DoubtfulSide(s: Sys, j: Job, newMsg: MsgId)
    requires AllRows(s.db) && Tables(s.db) && Side(s) && s.flight == Working(j)
    requires j.phase.Settling? && j.phase.result.Refused? && !j.phase.result.state.CheckoutRejected?
    ensures Side(Work(s, j, newMsg))
  {
    hide IntentNeedsAttention, DoubtfulGraph, RecordOrder, RejectIntent, NoOpenHold, WritesAuthorised, LogMarks, OnlyAt, MarksKept;
    var k := j.key;
    DoubtfulShape(s.db, k, j.phase.result.error);
    DoubtfulUnblocked(s.db, k, j.phase.result.error);
    var u := Work(s, j, newMsg);
    RestOfRenewal(s, u, j.origin, k.cand);
    SettledSide(s, u, j);
  }

  lemma WorkSide(s: Sys, j: Job, newMsg: MsgId)
    requires AllRows(s.db) && Tables(s.db) && Side(s) && s.flight == Working(j)
    ensures Side(Work(s, j, newMsg))
  {
    hide JobReady, PhaseReady, OriginReady;
    match j.phase
    case BeforeWrite => if s.live { BeforeWriteSide(s, j, newMsg); } else { DrySide(s, j, newMsg); }
    case WriteRecorded => WriteSide(s, j, newMsg);
    case AtProvider =>
    case Judged(_, _) => JudgedSide(s, j, newMsg);
    case Settling(result) =>
      if result.Accepted? {
        if newMsg !in s.db.msgs { AcceptedSide(s, j, result.order, newMsg); }
      } else if result.state.CheckoutRejected? {
        RefusedSide(s, j, newMsg);
      } else {
        DoubtfulSide(s, j, newMsg);
      }
  }

  lemma SettlingKeeps(s: Sys, j: Job, newMsg: MsgId)
    requires Inv(s.db) && JobReady(s, j) && j.phase.Settling?
    ensures Inv(Work(s, j, newMsg).db)
  {
    hide RejectIntent, IntentNeedsAttention, RefusedGraph, DoubtfulGraph, Tables, CandidateInv;
    var k := j.key;
    assert RowsAt(s.db, k);
    match j.phase.result
    case Accepted(o) => if newMsg !in s.db.msgs { RecordKeeps(s.db, k, o, RecordedAt(s, j), newMsg); }
    case Refused(state, error) =>
      if state.CheckoutRejected? {
        RejectKeeps(s.db, k, j.now, j.task.retry, j.task.maxCycles.Some? && k.no >= j.task.maxCycles.value);
      } else {
        AttentionKeeps(s.db, k, error);
      }
  }

  // ----- the loop's transaction

  lemma NextReady(s: Sys, e: Db, origin: Origin, c: CandId)
    requires OriginReady(s, origin, c) && OnlyAt(s.db, e, c)
    ensures FlightInv(To(s, e, Next(origin)))
  {}

  /** The transaction only touches its own candidate, and leaves intents and release times alone. */
  ghost predicate Mild(d: Db, e: Db, c: CandId) {
    && OnlyAt(d, e, c) && e.intents == d.intents
    && e.cycles.Keys == d.cycles.Keys && (forall k :: k in d.cycles ==> SameTimes(d.cycles[k], e.cycles[k]))
  }

  lemma PutMild(db: Db, c: CandId, a: Candidate)
    ensures Mild(db, Put(db, c, a), c) && Mild(db, db, c)
  {}

  lemma WriteMild(db: Db, k: Key, h: Graph)
    requires GraphExists(db, k) && h.intent == db.intents[k] && SameTimes(db.cycles[k], h.cycle)
    ensures Mild(db, Write(db, k, h), k.cand)
  {}

  lemma HoldMild(db: Db, t: Task, no: nat, heldAt: Time)
    requires RowsAt(db, Key(t.cand, no)) && Schedulable(db, t, no, heldAt)
    ensures Dispatched(db, t, 0, Hold(no, heldAt)).1 && Mild(db, Dispatched(db, t, 0, Hold(no, heldAt)).0, t.cand)
  {}

  lemma AttentionMild(db: Db, t: Task)
    requires t.cand in db.cands
    ensures Mild(db, MarkNeedsAttention(db, t), t.cand)
  {
    var a := db.cands[t.cand];
    var k := Key(t.cand, a.cycleNo);
    if GraphExists(db, k) && !a.state.RenewalClaimed? {
      WriteMild(db, k, BlockedGraph(Read(db, k)));
    } else {
      PutMild(db, t.cand, Blocked(a));
    }
  }

  lemma DispatchedMild(db: Db, t: Task, runNow: Time, v: Verdict)
    requires AllRows(db) && t.cand in db.cands && VerdictReady(db, t, v)
    ensures Dispatched(db, t, runNow, v).1 && Mild(db, Dispatched(db, t, runNow, v).0, t.cand)
  {
    var a := db.cands[t.cand];
    match v
    case Hold(no, heldAt) =>
      assert RowsAt(db, Key(t.cand, no));
      HoldMild(db, t, no, heldAt);
    case WaitFor(budget) => PutMild(db, t.cand, Waiting(a, t, budget, runNow));
    case Attention => AttentionMild(db, t);
    case Halt => PutMild(db, t.cand, Halted(a));
    case Release => PutMild(db, t.cand, a.(state := Queued, nextRunAt := None));
    case Nothing => PutMild(db, t.cand, a);
  }

  lemma DispatchSide(s: Sys, t: Task, origin: Origin, v: Verdict)
    requires AllRows(s.db) && Side(s) && s.flight == Dispatching(t, origin, v)
    ensures Side(Dispatch(s, t, origin, v))
  {
    DispatchedMild(s.db, t, origin.runNow, v);
    NextReady(s, Dispatched(s.db, t, origin.runNow, v).0, origin, t.cand);
  }

  lemma DispatchKeeps(s: Sys, t: Task, origin: Origin, v: Verdict)
    requires Inv(s.db) && t.cand in s.db.cands && VerdictReady(s.db, t, v)
    ensures Inv(Dispatch(s, t, origin, v).db)
  {
    hide AllRows, RowsAt, RowInv, Caps, Timing, SeatsDiffer, Mail, Reservation, Progressing, Amounts, Tables, CandidateInv;
    match v
    case Hold(no, heldAt) => ScheduleKeeps(s.db, t, no, heldAt);
    case WaitFor(budget) => WaitKeeps(s.db, t, budget, origin.runNow);
    case Attention => MarkKeeps(s.db, t);
    case Halt => PutKeeps(s.db, t.cand, Halted(s.db.cands[t.cand]));
    case Release => ReleaseClaimKeeps(s.db, t);
    case Nothing =>
  }
}
