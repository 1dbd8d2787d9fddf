/** Every step keeps the engine's invariant, so every run does. */
module EngineRuns {
  import opened Wrappers
  import opened Rows
  import opened Planning
  import opened Scheduling
  import opened Checkout
  import opened Environment
  import opened Mailbox
  import opened Engine
  import opened Invariants
  import opened Preservation
  import opened EngineInv
  import opened EngineProof
  import opened EngineSteps
  import opened EnginePlan
  import opened EngineWork

  lemma ResumedReady(db: Db, k: Key)
    requires AllRows(db) && Tables(db) && ResumeReady(db, k)
    ensures GraphExists(db, k) && db.allocs[k].active
  {}

  lemma TailQueue(db: Db, ks: seq<Key>)
    requires ks != [] && QueueReady(db, ks)
    ensures QueueReady(db, ks[1..]) && forall i :: 0 <= i < |ks[1..]| ==> ks[1..][i].cand != ks[0].cand
  {}

  lemma ResumeSide(s: Sys, queue: seq<Key>, runNow: Time)
    requires AllRows(s.db) && Tables(s.db) && Side(s) && s.flight == Resuming(queue, runNow)
    ensures Side(Resume(s, queue, runNow))
  {
    hide Tables, AllRows, LogMarks, WritesAuthorised, Request.Valid, HasTask;
    if queue != [] {
      assert ResumeReady(s.db, queue[0]);
      ResumedReady(s.db, queue[0]);
      TailQueue(s.db, queue);
    }
  }

  lemma RecoveredSide(s: Sys)
    requires Side(s)
    ensures Side(To(s, RecoverClaims(s.db), Idle))
  {}

  lemma AdvanceSide(s: Sys, newMsg: MsgId)
    requires AllRows(s.db) && Tables(s.db) && Side(s)
    ensures Side(Advance(s, newMsg))
  {
    hide Tables, CandidateInv;
    match s.flight
    case Rescheduling(_) => RepairSide(s, newMsg);
    case Reconciling(_) => RecoveredSide(s);
    case Finalizing(k, o, rows) => if newMsg !in s.db.msgs { FinalizeSide(s, k, o, rows, newMsg); }
    case FinalScheduling(k, heldAt, rows) => FinalScheduleSide(s, k, heldAt, rows);
    case Resuming(queue, runNow) => ResumeSide(s, queue, runNow);
    case Working(job) => WorkSide(s, job, newMsg);
    case Dispatching(t, origin, v) => DispatchSide(s, t, origin, v);
    case _ =>
  }

  lemma AdvanceKeeps(s: Sys, newMsg: MsgId)
    requires Inv(s.db) && FlightInv(s)
    ensures Inv(Advance(s, newMsg).db)
  {
    hide Tables, CandidateInv;
    match s.flight
    case Rescheduling(keys) =>
      if keys != [] && keys[0] in s.db.orders {
        assert RepairReady(s.db, keys[0]);
        RescheduleKeeps(s, keys[0], s.db.orders[keys[0]].heldAt, Rescheduling(keys[1..]));
      }
    case Reconciling(_) => RecoverClaimsKeeps(s.db);
    case Finalizing(k, o, rows) => if newMsg !in s.db.msgs { FinalizeKeeps(s, k, o, rows, newMsg); }
    case FinalScheduling(k, heldAt, rows) => RescheduleKeeps(s, k, heldAt, Reconciling(rows));
    case Working(job) => if job.phase.Settling? { SettlingKeeps(s, job, newMsg); } else { StagesKeep(s, job, newMsg); }
    case Dispatching(t, origin, v) => DispatchKeeps(s, t, origin, v);
    case _ =>
  }

  lemma ProcessorRaisesSide(s: Sys)
    requires Side(s)
    ensures Side(Step(s, ProcessorRaises))
  {
    hide Advance, Evaluate, Reconcile, ClaimRun, Act, Deliver, JudgeAnswer;
    if s.flight.Working? { RaiseSide(s, s.flight.job); }
  }

  lemma ThreadSide(s: Sys, e: Event)
    requires AllRows(s.db) && Tables(s.db) && Side(s)
    requires e.Boot? || e.ListIncomplete? || e.Looked? || e.StartRun? || e.ClaimDue? || e.LoadContext?
    ensures Side(Step(s, e))
  {
    hide Advance, Evaluate, Reconcile, ClaimRun, Act, Deliver, JudgeAnswer;
    match e
    case Boot(keys) => BootSide(s, keys);
    case ListIncomplete(rows) => ListSide(s, rows);
    case Looked(lookup) =>
      if s.flight.Reconciling? && s.flight.rows != [] { ReconcileSide(s, s.flight.rows, lookup); }
    case StartRun(queue) => StartRunSide(s, queue);
    case ClaimDue(chosen, tasks) =>
      if s.flight.Claiming? { ClaimSide(s, s.flight.runNow, chosen, tasks); }
    case LoadContext => LoadSide(s);
  }

  lemma CheckoutSide(s: Sys, e: Event)
    requires AllRows(s.db) && Tables(s.db) && Side(s)
    requires e.Evaluated? || e.Answered? || e.Proceed?
    ensures Side(Step(s, e))
  {
    hide Advance, Evaluate, Reconcile, ClaimRun, Act, Deliver, JudgeAnswer;
    match e
    case Evaluated(v) => if s.flight.Evaluating? { EvaluateSide(s, v); }
    case Answered(a) => AnsweredSide(s, a);
    case Proceed(newMsg) => AdvanceSide(s, newMsg);
  }

  lemma BreakSide(s: Sys, e: Event)
    requires Side(s) && (e.Tick? || e.Crash? || e.Interrupt? || e.ProcessorRaises?)
    ensures Side(Step(s, e))
  {
    hide Advance, Evaluate, Reconcile, ClaimRun, Act, Deliver, JudgeAnswer;
    match e
    case Tick(t) => TickSide(s, t);
    case ProcessorRaises => ProcessorRaisesSide(s);
    case _ => DownSide(s);
  }

  lemma StepSide(s: Sys, e: Event)
    requires AllRows(s.db) && Tables(s.db) && Side(s)
    ensures Side(Step(s, e))
  {
    hide Step;
    if e.Tick? || e.Crash? || e.Interrupt? || e.ProcessorRaises? { BreakSide(s, e); }
    else if e.Evaluated? || e.Answered? || e.Proceed? { CheckoutSide(s, e); }
    else if e.Outside? { OutsideSide(s, e.action); }
    else if e.Outbox? { OutboxSide(s, e.delivery); }
    else { ThreadSide(s, e); }
  }

  lemma DownSide(s: Sys)
    requires Side(s)
    ensures Side(Go(s, Down)) && Side(Go(s, Idle))
  {}

  lemma StepKeepsTables(s: Sys, e: Event)
    requires Inv(s.db) && FlightInv(s) && TimeInv(s)
    ensures Inv(Step(s, e).db)
  {
    hide Advance, Evaluate, Reconcile, ClaimRun, Act, Deliver, JudgeAnswer, Caps, Timing, SeatsDiffer, Mail;
    match e
    case Looked(lookup) =>
      if s.flight.Reconciling? && s.flight.rows != [] {
        assert RowReady(s.db, s.flight.rows[0]);
        ReconcileKeeps(s, s.flight.rows, lookup);
      }
    case ClaimDue(chosen, tasks) =>
      if s.flight.Claiming? { ClaimRunKeeps(s, s.flight.runNow, chosen, tasks); }
    case Evaluated(v) => if s.flight.Evaluating? { EvaluateKeeps(s, v); }
    case Proceed(newMsg) => AdvanceKeeps(s, newMsg);
    case Outside(x) => ActKeeps(s.db, x);
    case Outbox(x) => DeliverKeeps(s.db, x);
    case _ =>
  }

  lemma StartHolds(live: bool, paymentHost: string)
    ensures SysInv(Start(live, paymentHost))
  {
    hide JobReady, PhaseReady, OriginReady;
    var db := NoDb;
    forall b ensures BuyerKeys(db.allocs, b) == {} && BatchKeys(db.allocs, b) == {} && BatchSessions(db.allocs, db.cands, b) == {} {}
  }

  /** The engine's invariant holds after every run, with crashes and other people's steps anywhere in between. */
  lemma {:induction false} RunKeeps(live: bool, paymentHost: string, events: seq<Event>)
    ensures SysInv(Run(Start(live, paymentHost), events))
  {
    hide Step;
    if events == [] {
      StartHolds(live, paymentHost);
    } else {
      var before := events[..|events| - 1];
      RunKeeps(live, paymentHost, before);
      StepSide(Run(Start(live, paymentHost), before), events[|events| - 1]);
      StepKeepsTables(Run(Start(live, paymentHost), before), events[|events| - 1]);
    }
  }
}
