/** What the booking, its users and discovery do to the outbox: they add payment messages and touch no other. */
module MessageRuns {
  import opened Wrappers
  import opened Rows
  import opened Planning
  import opened Scheduling
  import opened Checkout
  import opened Environment
  import opened Mailbox
  import opened Engine
  import opened Invariants
  import opened EngineInv
  import opened EngineSteps
  import opened EnginePlan
  import opened Guarantees

  /** Every message is as before, and the new ones are pending payments. */
  ghost predicate PaymentsAdded(d: map<MsgId, Message>, e: map<MsgId, Message>) {
    && (forall m :: m in d ==> m in e && e[m] == d[m])
    && (forall m :: m in e && m !in d ==> e[m].kind.Payment? && e[m].state.MsgPending?)
  }

  lemma WorkMessages(s: Sys, j: Job, newMsg: MsgId)
    ensures PaymentsAdded(s.db.msgs, Work(s, j, newMsg).db.msgs)
  {
    hide GraphExists;
    if j.phase.Settling? && j.phase.result.Accepted? && newMsg !in s.db.msgs {
      RecordedAdds(s.db, j.key, j.phase.result.order, RecordedAt(s, j), newMsg);
    }
  }

  lemma RecordedAdds(db: Db, k: Key, o: Order, now: Time, newMsg: MsgId)
    requires newMsg !in db.msgs
    ensures PaymentsAdded(db.msgs, RecordOrder(db, k, o, now, newMsg).0.msgs)
  {}

  // ----- steps that are not about messages or subscriptions

  ghost predicate SameNotices(d: Db, e: Db) { e.msgs == d.msgs && e.subs == d.subs }

  lemma DispatchedMail(db: Db, t: Task, runNow: Time, v: Verdict)
    ensures SameNotices(db, Dispatched(db, t, runNow, v).0)
  {
    hide ScheduleAfterHold, ScheduleWait, MarkNeedsAttention, SameNotices;
    match v
    case Hold(no, heldAt) => HeldMail(db, t, no, heldAt);
    case WaitFor(budget) => WaitMail(db, t, budget, runNow);
    case Attention => BlockedMail(db, t);
    case _ => HaltedMail(db, t);
  }

  lemma BlockedMail(db: Db, t: Task)
    ensures SameNotices(db, MarkNeedsAttention(db, t))
  {
    hide Read;
  }

  lemma HaltedMail(db: Db, t: Task)
    ensures SameNotices(db, db) && SameNotices(db, StopTask(db, t)) && SameNotices(db, ReleaseClaim(db, t))
  {
    hide Halted;
  }

  lemma HeldMail(db: Db, t: Task, no: nat, heldAt: Time)
    ensures SameNotices(db, ScheduleAfterHold(db, t, no, heldAt).0)
  {}

  lemma WaitMail(db: Db, t: Task, budget: bool, runNow: Time)
    ensures SameNotices(db, ScheduleWait(db, t, budget, runNow))
  {}

  lemma RescheduledMail(s: Sys, k: Key, heldAt: Time, next: Flight)
    ensures SameNotices(s.db, Reschedule(s, k, heldAt, next).db)
  {
    hide ScheduleAfterHold, TaskOf;
    if HasTask(s.db, k) { HeldMail(s.db, TaskOf(s.db, k), k.no, heldAt); }
  }

  lemma LoopMail(s: Sys, newMsg: MsgId)
    requires !s.flight.Working? && !s.flight.Finalizing?
    ensures SameNotices(s.db, Advance(s, newMsg).db)
  {
    var f := s.flight;
    if f.Dispatching? { DispatchedMail(s.db, f.task, f.origin.runNow, f.verdict); }
    else if f.Rescheduling? && f.keys != [] && f.keys[0] in s.db.orders {
      RescheduledMail(s, f.keys[0], s.db.orders[f.keys[0]].heldAt, Rescheduling(f.keys[1..]));
    }
    else if f.FinalScheduling? { RescheduledMail(s, f.key, f.heldAt, Reconciling(f.rows)); }
  }

  lemma ReconciledMail(s: Sys, rows: seq<Engine.Incomplete>, lookup: Lookup)
    requires rows != []
    ensures SameNotices(s.db, Reconcile(s, rows, lookup).db)
  {}

  /** Events that commit nothing, or commit a recovery decision or a claim. */
  lemma OtherMail(s: Sys, e: Event)
    requires !e.Proceed? && !e.Outside? && !e.Outbox? && !e.Evaluated?
    ensures SameNotices(s.db, Step(s, e).db)
  {
    hide Deliver;
    if e.Looked? && s.flight.Reconciling? && s.flight.rows != [] { ReconciledMail(s, s.flight.rows, e.lookup); }
  }

  lemma AdvanceMessages(s: Sys, newMsg: MsgId)
    ensures PaymentsAdded(s.db.msgs, Advance(s, newMsg).db.msgs)
  {
    hide Work, Dispatch, Finalize, Reschedule;
    if s.flight.Working? { WorkMessages(s, s.flight.job, newMsg); }
    else if s.flight.Finalizing? { FinalMessages(s, newMsg); }
    else { LoopMail(s, newMsg); }
  }

  lemma FinalMessages(s: Sys, newMsg: MsgId)
    requires s.flight.Finalizing?
    ensures PaymentsAdded(s.db.msgs, Advance(s, newMsg).db.msgs)
  {
    if newMsg !in s.db.msgs { RecordedAdds(s.db, s.flight.key, s.flight.order, s.clock, newMsg); }
  }

  lemma PlanMessages(db: Db, r: PlanRequest)
    requires r.config.Valid()
    ensures Plan(db, r).0.msgs == db.msgs
  {
    if Plan(db, r).1.Planned? { PlannedShape(db, r); }
    else if r.cand in db.cands { UnplannedShape(db, r); }
    else { UnknownShape(db, r); }
  }

  lemma EvaluateMessages(s: Sys, e: Evaluation)
    requires Tables(s.db) && s.flight.Evaluating? && TaskReady(s.db, s.flight.task)
    ensures Evaluate(s, e).db.msgs == s.db.msgs
  {
    if Plans(s, e) {
      var f := s.flight;
      EvaluateShape(s, e);
      PlanMessages(s.db, PlanFor(s, f.task, f.now, f.version, e, Settings(s.db, f.task.cand)));
    }
  }

  lemma ActMessages(db: Db, x: Action)
    ensures Act(db, x).msgs == db.msgs
  {}

  lemma StepMessages(s: Sys, e: Event)
    requires Reachable(s) && !e.Outbox?
    ensures PaymentsAdded(s.db.msgs, Step(s, e).db.msgs)
  {
    hide Advance, Evaluate, Reconcile, ClaimRun, Act, Deliver, JudgeAnswer;
    if e.Proceed? { AdvanceMessages(s, e.newMsg); }
    else if e.Outside? { ActMessages(s.db, e.action); }
    else if !e.Evaluated? { OtherMail(s, e); }
    else if s.flight.Evaluating? { ReachableTask(s); ReachableTables(s); EvaluateMessages(s, e.evaluation); }
  }

  // ----- summaries

  ghost predicate OneSummary(msgs: map<MsgId, Message>) {
    forall m, n ::
      (m in msgs && n in msgs && msgs[m].kind.Summary? && msgs[m].kind == msgs[n].kind && msgs[m].buyer == msgs[n].buyer)
      ==> m == n
  }

  lemma DeliverSummaries(db: Db, x: Delivery)
    requires OneSummary(db.msgs)
    ensures OneSummary(Deliver(db, x).msgs)
  {
    DeliverMoves(db, x);
    if x.SummaryMail? { SummaryOnce(db, x.b, x.buyer, x.now, x.newMsg); } else { SameMessages(db, x); }
  }

  lemma SameMessages(db: Db, x: Delivery)
    requires !x.SummaryMail?
    ensures Deliver(db, x).msgs.Keys == db.msgs.Keys
  {
    match x
    case ClaimMail(now, chosen) => assert ClaimMessages(db, now, chosen).msgs.Keys == db.msgs.Keys;
    case RecoverMail(now) => assert RecoverMessages(db, now).msgs.Keys == db.msgs.Keys;
    case FinishMail(m, state, id) => assert Finish(db, m, state, id).msgs.Keys == db.msgs.Keys;
    case RetryMail(m, at) => assert RetryMessage(db, m, at).msgs.Keys == db.msgs.Keys;
    case SummaryMail(_, _, _, _) =>
  }

  lemma SummaryOnce(db: Db, b: BatchId, buyer: BuyerId, now: Time, newMsg: MsgId)
    requires OneSummary(db.msgs)
    ensures OneSummary(EnqueueSummary(db, b, buyer, now, newMsg).msgs)
  {}

  lemma {:induction false} RunSummaries(live: bool, paymentHost: string, events: seq<Event>)
    ensures OneSummary(Run(Start(live, paymentHost), events).db.msgs)
  {
    hide Advance, Evaluate, Reconcile, ClaimRun, Act, Deliver, JudgeAnswer;
    if events != [] {
      var before, e := events[..|events| - 1], events[|events| - 1];
      var s := Run(Start(live, paymentHost), before);
      RunSummaries(live, paymentHost, before);
      assert Reachable(s);
      if e.Outbox? { DeliverSummaries(s.db, e.delivery); } else { StepMessages(s, e); }
    }
  }

  /** A batch and a buyer never have two summaries. */
  lemma OneSummaryEach(s: Sys)
    requires Reachable(s)
    ensures OneSummary(s.db.msgs)
  {
    hide Step, Run;
    var live, paymentHost, events :| s == Run(Start(live, paymentHost), events);
    RunSummaries(live, paymentHost, events);
  }
}
