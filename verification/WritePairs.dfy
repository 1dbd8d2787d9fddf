/** Between two consecutive writes of a checkout lies either one authorised retry or one lost write, never both. */
module WritePairs {
  import opened Wrappers
  import opened Rows
  import opened Planning
  import opened Scheduling
  import opened Checkout
  import opened Environment
  import opened Mailbox
  import opened Engine
  import opened Invariants
  import opened Preservation
  import opened PlanProof
  import opened EngineInv
  import opened EngineProof
  import opened EngineSteps
  import opened EnginePlan
  import opened EngineWork
  import opened EngineRuns
  import opened Guarantees
  import opened Writes

  /** The step calls the provider for `k`. */
  predicate Calls(s: Sys, e: Event, k: Key) { e.Proceed? && AboutToWrite(s, k) }

  /** The step authorises a retry of `k`. */
  ghost predicate Authorises(s: Sys, e: Event, k: Key) { Step(s, e).log == s.log + [Authorised(k)] }

  /** The step loses a repeated write of `k` in doubt. */
  predicate Loses(s: Sys, e: Event, k: Key) { Disturbs(s, e) && s.flight.job.key == k }

  lemma CallIsLogged(s: Sys, e: Event, k: Key)
    requires Reachable(s)
    ensures Calls(s, e, k) <==> Step(s, e).log == s.log + [Wrote(k)]
  {
    if e.Looked? {
      ReachableRecovery(s);
      if s.flight.Reconciling? && s.flight.rows != [] {
        ReconcileShape(s, s.flight.rows, e.lookup);
        SameTail(s.log, Authorised(s.flight.rows[0].key), Wrote(k));
      }
    } else if !Speaks(s, e) {
      QuietLog(s, e);
    } else {
      SameTail(s.log, Opened(s.flight.job.key), Wrote(k));
      SameTail(s.log, Wrote(s.flight.job.key), Wrote(k));
    }
  }

  lemma SameTail(log: seq<LogEntry>, x: LogEntry, y: LogEntry)
    ensures log + [x] == log + [y] <==> x == y
    ensures log != log + [y]
  {
    assert (log + [x])[|log|] == x && (log + [y])[|log|] == y;
  }

  /** An authorisation concerns an unfinished checkout, which is not open to a retry yet. */
  lemma AuthorisedWasClosed(s: Sys, e: Event, k: Key)
    requires Reachable(s) && Authorises(s, e, k)
    ensures !Retryable(s.db, k) && Retryable(Step(s, e).db, k) && !Step(s, e).flight.Working? && s.flight.Reconciling?
  {
    hide Reachable, Run, Evaluate, ClaimRun, Act, Deliver, JudgeAnswer, Decide;
    if e.Looked? {
      ReachableRecovery(s);
      if s.flight.Reconciling? && s.flight.rows != [] {
        ReconcileShape(s, s.flight.rows, e.lookup);
        SameTail(s.log, Authorised(s.flight.rows[0].key), Authorised(k));
        ReachableRow(s, s.flight.rows[0].key);
      }
      SameTail(s.log, Authorised(k), Authorised(k));
    } else if !Speaks(s, e) {
      QuietLog(s, e);
      SameTail(s.log, Authorised(k), Authorised(k));
    } else {
      SameTail(s.log, Opened(s.flight.job.key), Authorised(k));
      SameTail(s.log, Wrote(s.flight.job.key), Authorised(k));
    }
  }

  // ----- a retry stays open until it is written

  lemma SettlingElsewhere(s: Sys, j: Job, newMsg: MsgId, k: Key)
    requires Tables(s.db) && AllRows(s.db) && JobReady(s, j) && j.phase.Settling? && Dated(s.db.cycles, s.mark)
    requires j.key != k && Retryable(s.db, k)
    ensures Retryable(Work(s, j, newMsg).db, k)
  {
    hide Tables, CandidateInv, AllRows, RowsAt, RowInv;
    match j.phase.result
    case Accepted(o) =>
      if newMsg !in s.db.msgs { AcceptedElsewhere(s, j, o, newMsg, k); }
    case Refused(state, error) => if !state.CheckoutRejected? { DoubtfulShape(s.db, j.key, error); }
  }

  lemma AcceptedElsewhere(s: Sys, j: Job, o: Order, newMsg: MsgId, k: Key)
    requires Tables(s.db) && AllRows(s.db) && JobReady(s, j) && j.phase == Settling(Accepted(o)) && newMsg !in s.db.msgs
    requires Dated(s.db.cycles, s.mark) && j.key != k && Retryable(s.db, k)
    ensures Retryable(Work(s, j, newMsg).db, k)
  {
    hide Reservation, Progressing, Amounts, RecordOrder, Work;
    assert RowsAt(s.db, j.key) && CandidateInv(s.db, s.db.cands[j.key.cand]);
    RecordedShape(s.db, j.key, o, RecordedAt(s, j), newMsg);
    AcceptedShape(s, j, o, newMsg);
  }

  lemma WorkStays(s: Sys, j: Job, newMsg: MsgId, k: Key)
    requires Tables(s.db) && AllRows(s.db) && JobReady(s, j) && Dated(s.db.cycles, s.mark) && s.live && s.flight == Working(j)
    requires Retryable(s.db, k) && !InDoubt(s, k)
    ensures Retryable(Work(s, j, newMsg).db, k)
  {
    hide Tables, CandidateInv;
    assert RowsAt(s.db, j.key);
    match j.phase
    case BeforeWrite => StagedShape(s.db, j.key, WriteStarted, s.clock);
    case Judged(stage, _) => StagedShape(s.db, j.key, stage, s.clock);
    case Settling(_) => SettlingElsewhere(s, j, newMsg, k);
    case _ =>
  }

  lemma RecoveryStays(s: Sys, newMsg: MsgId, k: Key)
    requires Tables(s.db) && AllRows(s.db) && FlightInv(s) && !Booted(s.flight) && Retryable(s.db, k)
    ensures Retryable(Advance(s, newMsg).db, k)
  {
    hide Tables, CandidateInv, Reservation, Progressing, Amounts;
    match s.flight
    case Rescheduling(keys) =>
      if keys != [] {
        assert RepairReady(s.db, keys[0]) && RowsAt(s.db, keys[0]);
        var heldAt := s.db.orders[keys[0]].heldAt;
        RescheduleShape(s, keys[0], heldAt, Rescheduling(keys[1..]));
      }
    case Finalizing(n, o, rows) => if newMsg !in s.db.msgs { FinalizeStays(s, n, o, rows, newMsg, k); }
    case FinalScheduling(n, heldAt, rows) =>
      assert RowsAt(s.db, n);
      RescheduleShape(s, n, heldAt, Reconciling(rows));
    case _ =>
  }

  lemma FinalizeStays(s: Sys, n: Key, o: Order, rows: seq<Engine.Incomplete>, newMsg: MsgId, k: Key)
    requires Tables(s.db) && AllRows(s.db) && FinalReady(s.db, n, o, rows) && newMsg !in s.db.msgs && Retryable(s.db, k)
    ensures Retryable(Finalize(s, n, o, rows, newMsg).db, k)
  {
    hide Reservation, Progressing, Amounts, RecordOrder;
    assert RowsAt(s.db, n) && CandidateInv(s.db, s.db.cands[n.cand]);
    RecordedShape(s.db, n, o, s.clock, newMsg);
  }

  lemma AdvanceStays(s: Sys, newMsg: MsgId, k: Key)
    requires Tables(s.db) && AllRows(s.db) && FlightInv(s) && Dated(s.db.cycles, s.mark) && s.live
    requires Retryable(s.db, k) && !InDoubt(s, k)
    ensures Retryable(Advance(s, newMsg).db, k)
  {
    hide Tables, CandidateInv;
    var f := s.flight;
    if !Booted(f) { RecoveryStays(s, newMsg, k); }
    else if f.Working? { WorkStays(s, f.job, newMsg, k); }
    else if f.Dispatching? { DispatchedMild(s.db, f.task, f.origin.runNow, f.verdict); }
  }

  lemma EvaluateStays(s: Sys, e: Evaluation, k: Key)
    requires Tables(s.db) && s.flight.Evaluating? && TaskReady(s.db, s.flight.task) && Retryable(s.db, k)
    ensures Retryable(Evaluate(s, e).db, k)
  {
    if Plans(s, e) {
      var f := s.flight;
      var r := PlanFor(s, f.task, f.now, f.version, e, Settings(s.db, f.task.cand));
      EvaluateShape(s, e);
      if Plan(s.db, r).1.Planned? {
        PlannedShape(s.db, r);
        assert NewKey(s.db, r) !in s.db.cycles;
      } else if r.cand in s.db.cands {
        UnplannedShape(s.db, r);
      } else {
        UnknownShape(s.db, r);
      }
    }
  }

  lemma LookedStays(s: Sys, rows: seq<Engine.Incomplete>, lookup: Lookup, k: Key)
    requires rows != [] && RowReady(s.db, rows[0]) && Retryable(s.db, k)
    ensures Retryable(Reconcile(s, rows, lookup).db, k)
  {
    hide Reconcile, Decide;
    ReconcileShape(s, rows, lookup);
    ResolvedStays(s.db, rows[0].key, Decide(s.db, s.paymentHost, rows[0].key, rows[0].started, lookup), k);
  }

  lemma ResolvedStays(db: Db, n: Key, d: Disposition, k: Key)
    requires n in db.intents && Unfinished(db.intents[n].state) && Retryable(db, k)
    ensures Retryable(ApplyRecovery(db, n, d), k)
  {}

  lemma LookupStays(s: Sys, lookup: Lookup, k: Key)
    requires Side(s) && Tables(s.db) && AllRows(s.db) && Retryable(s.db, k)
    ensures Retryable(Step(s, Looked(lookup)).db, k)
  {
    hide Advance, Reconcile, Evaluate, ClaimRun, Act, Deliver, JudgeAnswer, Tables, AllRows, RowReady, LogMarks, WritesAuthorised;
    if s.flight.Reconciling? && s.flight.rows != [] {
      HeadRow(s.db, s.flight.rows);
      LookedStays(s, s.flight.rows, lookup, k);
    }
  }

  lemma OutsideStays(s: Sys, e: Event, k: Key)
    requires (e.Outside? || e.Outbox?) && Tables(s.db) && Retryable(s.db, k)
    ensures Retryable(Step(s, e).db, k)
  {
    hide Advance, Evaluate, Reconcile, ClaimRun, Act, Deliver, JudgeAnswer, CandidateInv, Untouched;
    if e.Outside? { ActCalm(s.db, e.action); } else { DeliverCalm(s.db, e.delivery); }
  }

  lemma ProceedStays(s: Sys, newMsg: MsgId, k: Key)
    requires Tables(s.db) && AllRows(s.db) && Side(s) && s.live && Retryable(s.db, k) && !InDoubt(s, k)
    ensures Retryable(Advance(s, newMsg).db, k)
  {
    hide Advance, Tables, AllRows, FlightInv;
    AdvanceStays(s, newMsg, k);
  }

  lemma EvaluatedStays(s: Sys, e: Evaluation, k: Key)
    requires Tables(s.db) && Side(s) && s.flight.Evaluating? && Retryable(s.db, k)
    ensures Retryable(Evaluate(s, e).db, k)
  {
    hide Evaluate, Tables;
    EvaluateStays(s, e, k);
  }

  lemma ClaimStays(s: Sys, chosen: set<CandId>, tasks: seq<Task>, k: Key)
    requires Side(s) && s.flight.Claiming? && Retryable(s.db, k)
    ensures Retryable(ClaimRun(s, s.flight.runNow, chosen, tasks).db, k)
  {
    hide Due, ClaimedTasks;
    ClaimReleased(s.db, s.flight.runNow, chosen, s.mark);
  }

  lemma StaysRetryable(s: Sys, e: Event, k: Key)
    requires Tables(s.db) && AllRows(s.db) && Side(s) && s.live && Retryable(s.db, k) && !InDoubt(s, k)
    ensures Retryable(Step(s, e).db, k)
  {
    hide Advance, Evaluate, Reconcile, ClaimRun, Act, Deliver, JudgeAnswer, Tables, AllRows, Side;
    if e.Proceed? { ProceedStays(s, e.newMsg, k); }
    else if e.Outside? || e.Outbox? { OutsideStays(s, e, k); }
    else if e.Looked? { LookupStays(s, e.lookup, k); }
    else if e.Evaluated? && s.flight.Evaluating? { EvaluatedStays(s, e.evaluation, k); }
    else if e.ClaimDue? && s.flight.Claiming? { ClaimStays(s, e.chosen, e.tasks, k); }
  }

  /** Unless this very step authorises it, a checkout open to a retry was so before. */
  lemma WasRetryable(s: Sys, e: Event, k: Key)
    requires Tables(s.db) && AllRows(s.db) && Side(s) && !Authorises(s, e, k) && Retryable(Step(s, e).db, k)
    ensures Retryable(s.db, k)
  {
    hide AllRows, RowsAt, RowInv, Tables, CandidateInv;
    if e.Looked? {
      if s.flight.Reconciling? && s.flight.rows != [] {
        assert RowReady(s.db, s.flight.rows[0]);
        ReconcileShape(s, s.flight.rows, e.lookup);
      }
    } else if Speaks(s, e) {
      OpenedWasRetryable(s, s.flight.job, e.newMsg, k);
    } else {
      QuietMarks(s, e, k);
    }
  }

  lemma OpenedWasRetryable(s: Sys, j: Job, newMsg: MsgId, k: Key)
    requires JobReady(s, j) && s.flight == Working(j) && (j.phase.BeforeWrite? || j.phase.WriteRecorded?)
    ensures Retryable(Work(s, j, newMsg).db, k) ==> Retryable(s.db, k)
  {
    StagedShape(s.db, j.key, WriteStarted, s.clock);
  }

  lemma DoubtFromCall(s: Sys, e: Event, k: Key)
    requires !InDoubt(s, k) && InDoubt(Step(s, e), k)
    ensures Calls(s, e, k)
  {
    hide Act, Deliver, Claim, Plan, RecordOrder, RejectIntent, IntentNeedsAttention, RecordStage, ApplyRecovery, ScheduleAfterHold, Dispatched, Decide;
  }

  lemma AboutFromOpen(s: Sys, e: Event, k: Key)
    requires AboutToWrite(Step(s, e), k)
    ensures AboutToWrite(s, k) || (s.flight.Working? && s.flight.job.key == k && s.flight.job.phase.BeforeWrite?)
  {
    hide Act, Deliver, Claim, Plan, RecordOrder, RejectIntent, IntentNeedsAttention, RecordStage, ApplyRecovery, ScheduleAfterHold, Dispatched, Decide;
  }

  // ----- the state between two writes

  /** Since the last call for `k`, a retry was authorised, or a repeated write was lost: exactly then it is open again. */
  ghost predicate Between(s: Sys, k: Key, granted: bool, lost: bool) {
    && (lost || InDoubt(s, k) ==> s.live && Wrote(k) in s.log)
    && (s.live && Wrote(k) in s.log ==>
          && !(granted && lost)
          && (Retryable(s.db, k) && !InDoubt(s, k) <==> granted || lost)
          && (AboutToWrite(s, k) ==> Retryable(s.db, k)))
  }

  lemma WrittenBefore(s: Sys, e: Event, k: Key)
    requires Reachable(s) && !Calls(s, e, k) && Wrote(k) in Step(s, e).log
    ensures Wrote(k) in s.log
  {
    CallIsLogged(s, e, k);
    if e.Looked? {
      ReachableRecovery(s);
      if s.flight.Reconciling? && s.flight.rows != [] { ReconcileShape(s, s.flight.rows, e.lookup); }
    } else if !Speaks(s, e) {
      QuietLog(s, e);
    }
  }

  lemma LossStaysOpen(s: Sys, e: Event, k: Key)
    requires Loses(s, e, k)
    ensures Retryable(Step(s, e).db, k) && !InDoubt(Step(s, e), k) && !AboutToWrite(Step(s, e), k)
  {
    hide Advance, Evaluate, Reconcile, ClaimRun, Act, Deliver, JudgeAnswer;
  }

  /** A step that neither calls, nor authorises, nor loses leaves open what was open, and nothing else. */
  lemma StillBetween(s: Sys, e: Event, k: Key)
    requires Tables(s.db) && AllRows(s.db) && Side(s) && s.live && !Calls(s, e, k) && !Authorises(s, e, k) && !Loses(s, e, k)
    ensures Retryable(s.db, k) && !InDoubt(s, k) <==> Retryable(Step(s, e).db, k) && !InDoubt(Step(s, e), k)
  {
    hide Step;
    if Retryable(s.db, k) && !InDoubt(s, k) {
      StaysRetryable(s, e, k);
      if InDoubt(Step(s, e), k) { DoubtFromCall(s, e, k); }
    }
    if Retryable(Step(s, e).db, k) && !InDoubt(Step(s, e), k) {
      WasRetryable(s, e, k);
      if InDoubt(s, k) { DoubtStays(s, e, k); }
    }
  }

  /** A written checkout that is opened again was open to a retry. */
  lemma OpenedAgain(s: Sys, e: Event, k: Key)
    requires Tables(s.db) && AllRows(s.db) && Side(s) && s.live && Wrote(k) in s.log && AboutToWrite(Step(s, e), k)
    requires AboutToWrite(s, k) ==> Retryable(s.db, k)
    ensures Retryable(Step(s, e).db, k)
  {
    hide Step;
    AboutFromOpen(s, e, k);
    JobIsReady(s);
    StaysRetryable(s, e, k);
  }

  lemma CallLeavesDoubt(s: Sys, e: Event, k: Key)
    requires Calls(s, e, k)
    ensures InDoubt(Step(s, e), k) && !AboutToWrite(Step(s, e), k)
  {
    hide Act, Deliver, Claim, Plan, RecordOrder, RejectIntent, IntentNeedsAttention, ApplyRecovery, ScheduleAfterHold, Dispatched;
  }

  lemma BetweenStep(s: Sys, e: Event, k: Key, granted: bool, lost: bool)
    requires Reachable(s) && Between(s, k, granted, lost)
    ensures Between(Step(s, e), k, !Calls(s, e, k) && (granted || Authorises(s, e, k)), !Calls(s, e, k) && (lost || Loses(s, e, k)))
  {
    hide Step, Run;
    var u := Step(s, e);
    LiveStays(s, e);
    DoubtIsLogged(s, e, k, lost);
    if Calls(s, e, k) { CallLeavesDoubt(s, e, k); }
    if u.live && Wrote(k) in u.log && !Calls(s, e, k) {
      WrittenBefore(s, e, k);
      if Authorises(s, e, k) {
        AuthorisedWasClosed(s, e, k);
      } else if Loses(s, e, k) {
        LossStaysOpen(s, e, k);
      } else {
        ReachableHolds(s);
        StillBetween(s, e, k);
        if AboutToWrite(u, k) { OpenedAgain(s, e, k); }
      }
    }
  }

  lemma DoubtIsLogged(s: Sys, e: Event, k: Key, lost: bool)
    requires Reachable(s) && (lost || InDoubt(s, k) ==> s.live && Wrote(k) in s.log)
    ensures lost || Loses(s, e, k) || InDoubt(Step(s, e), k) ==> s.live && Wrote(k) in Step(s, e).log
  {
    hide Step, Run;
    if lost || InDoubt(s, k) { LogGrows(s, e, Wrote(k)); }
    if Calls(s, e, k) {
      CallIsOpen(s, e, k);
      CallIsLogged(s, e, k);
      assert Step(s, e).log[|s.log|] == Wrote(k);
    }
    if InDoubt(Step(s, e), k) && !InDoubt(s, k) { DoubtFromCall(s, e, k); }
  }

  lemma LiveStays(s: Sys, e: Event)
    ensures Step(s, e).live == s.live
  {}

  // ----- whole runs

  /** A retry of `k` was authorised since the last call for it. */
  ghost function Granted(start: Sys, events: seq<Event>, k: Key): bool {
    if events == [] then false
    else
      var s, e := Run(start, events[..|events| - 1]), events[|events| - 1];
      !Calls(s, e, k) && (Granted(start, events[..|events| - 1], k) || Authorises(s, e, k))
  }

  /** A repeated write of `k` was lost in doubt since the last call for it. */
  ghost function Lost(start: Sys, events: seq<Event>, k: Key): bool {
    if events == [] then false
    else
      var s, e := Run(start, events[..|events| - 1]), events[|events| - 1];
      !Calls(s, e, k) && (Lost(start, events[..|events| - 1], k) || Loses(s, e, k))
  }

  lemma {:induction false} RunBetween(live: bool, paymentHost: string, events: seq<Event>, k: Key)
    ensures var start := Start(live, paymentHost); Between(Run(start, events), k, Granted(start, events, k), Lost(start, events, k))
  {
    hide Step;
    if events != [] {
      var start, before := Start(live, paymentHost), events[..|events| - 1];
      RunBetween(live, paymentHost, before, k);
      assert Reachable(Run(start, before));
      BetweenStep(Run(start, before), events[|events| - 1], k, Granted(start, before, k), Lost(start, before, k));
    }
  }

  lemma CallIsOpen(s: Sys, e: Event, k: Key)
    requires Reachable(s) && Calls(s, e, k)
    ensures s.live && !InDoubt(s, k)
  {
    hide Step, Run;
    ReachableJob(s);
  }

  /** A lost repetition cannot be authorised before the provider is called again. */
  lemma LostIsNotAuthorised(live: bool, paymentHost: string, events: seq<Event>, e: Event, k: Key)
    requires Lost(Start(live, paymentHost), events, k)
    ensures !Authorises(Run(Start(live, paymentHost), events), e, k)
  {
    hide Step, Run;
    var s := Run(Start(live, paymentHost), events);
    assert Reachable(s);
    RunBetween(live, paymentHost, events, k);
    if Authorises(s, e, k) { AuthorisedWasClosed(s, e, k); }
  }

  /**
   Whenever the provider is called again for a checkout, either a retry was authorised since the last call or that
   call was lost in doubt, and never both.
   */
  lemma RepeatedExactly(live: bool, paymentHost: string, events: seq<Event>, e: Event, k: Key)
    requires var s := Run(Start(live, paymentHost), events); Calls(s, e, k) && Wrote(k) in s.log
    ensures Granted(Start(live, paymentHost), events, k) <==> !Lost(Start(live, paymentHost), events, k)
  {
    hide Step, Run;
    var s := Run(Start(live, paymentHost), events);
    assert Reachable(s);
    CallIsOpen(s, e, k);
    RunBetween(live, paymentHost, events, k);
  }

  // ----- positions in a run

  ghost predicate CallAt(start: Sys, events: seq<Event>, n: nat, k: Key) {
    n < |events| && Calls(Run(start, events[..n]), events[n], k)
  }

  ghost predicate GrantAt(start: Sys, events: seq<Event>, n: nat, k: Key) {
    n < |events| && Authorises(Run(start, events[..n]), events[n], k)
  }

  ghost predicate LossAt(start: Sys, events: seq<Event>, n: nat, k: Key) {
    n < |events| && Loses(Run(start, events[..n]), events[n], k)
  }

  ghost predicate NoCallFrom(start: Sys, events: seq<Event>, n: nat, k: Key) {
    forall m :: n <= m < |events| ==> !CallAt(start, events, m, k)
  }

  lemma SamePositions(start: Sys, events: seq<Event>, n: nat, k: Key)
    requires n + 1 < |events|
    ensures var before := events[..|events| - 1];
      && (CallAt(start, before, n, k) <==> CallAt(start, events, n, k))
      && (GrantAt(start, before, n, k) <==> GrantAt(start, events, n, k))
      && (LossAt(start, before, n, k) <==> LossAt(start, events, n, k))
  {
    hide Step, Run;
    assert events[..|events| - 1][..n] == events[..n];
  }

  lemma NoCallLonger(start: Sys, events: seq<Event>, n: nat, k: Key)
    requires n < |events|
    ensures var last := |events| - 1;
      (NoCallFrom(start, events, n, k) <==> NoCallFrom(start, events[..last], n, k) && !CallAt(start, events, last, k))
  {
    hide Step, Run;
    var last := |events| - 1;
    var before := events[..last];
    forall m: nat | n <= m < last ensures CallAt(start, before, m, k) <==> CallAt(start, events, m, k) {
      SamePositions(start, events, m, k);
    }
    if NoCallFrom(start, before, n, k) && !CallAt(start, events, last, k) {
      forall m | n <= m < |events| ensures !CallAt(start, events, m, k) { if m < last { assert !CallAt(start, before, m, k); } }
    }
  }

  lemma {:induction false} GrantedMeans(start: Sys, events: seq<Event>, k: Key)
    ensures Granted(start, events, k) <==> exists n: nat :: GrantAt(start, events, n, k) && NoCallFrom(start, events, n, k)
  {
    hide Step, Run;
    if events != [] {
      var before, last := events[..|events| - 1], |events| - 1;
      GrantedMeans(start, before, k);
      forall n: nat | n < last ensures GrantAt(start, before, n, k) <==> GrantAt(start, events, n, k) { SamePositions(start, events, n, k); }
      forall n: nat | n <= last
        ensures NoCallFrom(start, events, n, k) <==> NoCallFrom(start, before, n, k) && !CallAt(start, events, last, k)
      { NoCallLonger(start, events, n, k); }
      if exists n: nat :: GrantAt(start, before, n, k) && NoCallFrom(start, before, n, k) {
        var n: nat :| GrantAt(start, before, n, k) && NoCallFrom(start, before, n, k);
        assert GrantAt(start, events, n, k);
      }
      assert GrantAt(start, events, last, k) <==> Authorises(Run(start, before), events[last], k);
      assert CallAt(start, events, last, k) <==> Calls(Run(start, before), events[last], k);
    }
  }

  lemma {:induction false} LostMeans(start: Sys, events: seq<Event>, k: Key)
    ensures Lost(start, events, k) <==> exists n: nat :: LossAt(start, events, n, k) && NoCallFrom(start, events, n, k)
  {
    hide Step, Run;
    if events != [] {
      var before, last := events[..|events| - 1], |events| - 1;
      LostMeans(start, before, k);
      forall n: nat | n < last ensures LossAt(start, before, n, k) <==> LossAt(start, events, n, k) { SamePositions(start, events, n, k); }
      forall n: nat | n <= last
        ensures NoCallFrom(start, events, n, k) <==> NoCallFrom(start, before, n, k) && !CallAt(start, events, last, k)
      { NoCallLonger(start, events, n, k); }
      if exists n: nat :: LossAt(start, before, n, k) && NoCallFrom(start, before, n, k) {
        var n: nat :| LossAt(start, before, n, k) && NoCallFrom(start, before, n, k);
        assert LossAt(start, events, n, k);
      }
      assert LossAt(start, events, last, k) <==> Loses(Run(start, before), events[last], k);
      assert CallAt(start, events, last, k) <==> Calls(Run(start, before), events[last], k);
    }
  }

  lemma LogGrows(s: Sys, e: Event, x: LogEntry)
    requires x in s.log
    ensures x in Step(s, e).log
  {
    hide Distinct;
    if e.Proceed? && s.flight.Working? { WorkLog(s, s.flight.job, e.newMsg, x); }
  }

  lemma WorkLog(s: Sys, j: Job, newMsg: MsgId, x: LogEntry)
    requires x in s.log
    ensures x in Work(s, j, newMsg).log
  {}

  lemma {:induction false} CalledIsLogged(live: bool, paymentHost: string, events: seq<Event>, n: nat, k: Key)
    requires CallAt(Start(live, paymentHost), events, n, k)
    ensures Wrote(k) in Run(Start(live, paymentHost), events).log
  {
    hide Step;
    var start, before := Start(live, paymentHost), events[..|events| - 1];
    if n == |events| - 1 {
      assert Reachable(Run(start, before));
      CallIsLogged(Run(start, before), events[n], k);
      assert Run(start, events).log[|Run(start, before).log|] == Wrote(k);
    } else {
      SamePositions(start, events, n, k);
      CalledIsLogged(live, paymentHost, before, n, k);
      LogGrows(Run(start, before), events[|events| - 1], Wrote(k));
    }
  }

  /** The calls at these two positions are consecutive ones for `k`. */
  ghost predicate Consecutive(start: Sys, events: seq<Event>, a: nat, b: nat, k: Key) {
    a < b && CallAt(start, events, a, k) && CallAt(start, events, b, k)
    && forall m :: a < m < b ==> !CallAt(start, events, m, k)
  }

  /** Between two consecutive calls a retry was authorised exactly when no repeated write was lost there. */
  lemma ConsecutiveWrites(live: bool, paymentHost: string, events: seq<Event>, a: nat, b: nat, k: Key)
    requires Consecutive(Start(live, paymentHost), events, a, b, k)
    ensures var start := Start(live, paymentHost);
      (exists n: nat :: a < n < b && GrantAt(start, events, n, k)) <==> !(exists n: nat :: a < n < b && LossAt(start, events, n, k))
  {
    hide Step, Run;
    var start, until := Start(live, paymentHost), events[..b];
    forall n: nat | n < b
      ensures CallAt(start, until, n, k) <==> CallAt(start, events, n, k)
      ensures GrantAt(start, until, n, k) <==> GrantAt(start, events, n, k)
      ensures LossAt(start, until, n, k) <==> LossAt(start, events, n, k)
    { assert until[..n] == events[..n]; }
    CalledIsLogged(live, paymentHost, until, a, k);
    RepeatedExactly(live, paymentHost, until, events[b], k);
    GrantedMeans(start, until, k);
    LostMeans(start, until, k);
    forall n: nat | n < b ensures NoCallFrom(start, until, n, k) <==> a < n {
      if n <= a { assert CallAt(start, until, a, k); }
    }
  }

  // ----- counts

  /** How often a repeated write of `k` was lost in doubt. */
  ghost function Losses(start: Sys, events: seq<Event>, k: Key): nat {
    if events == [] then 0
    else
      var before := events[..|events| - 1];
      Losses(start, before, k) + if Loses(Run(start, before), events[|events| - 1], k) then 1 else 0
  }

  /** Calls against authorised retries and losses; an open retry is one that has not been used. */
  ghost predicate Covered(s: Sys, k: Key, open: bool, losses: nat) {
    var w, a := Times(s.log, Wrote(k)), Times(s.log, Authorised(k));
    w <= a + losses + 1 && (open && s.live ==> w <= a + losses)
  }

  /** Only a call of `k`, or an authorisation of it, changes what is counted. */
  lemma CountsChange(s: Sys, e: Event, k: Key)
    requires Reachable(s)
    ensures Times(Step(s, e).log, Wrote(k)) == Times(s.log, Wrote(k)) + (if Calls(s, e, k) then 1 else 0)
    ensures Times(Step(s, e).log, Authorised(k)) == Times(s.log, Authorised(k)) + (if Authorises(s, e, k) then 1 else 0)
  {
    hide Advance, Evaluate, Reconcile, ClaimRun, Act, Deliver, JudgeAnswer;
    CallIsLogged(s, e, k);
    if e.Looked? {
      ReachableRecovery(s);
      if s.flight.Reconciling? && s.flight.rows != [] {
        var n := s.flight.rows[0].key;
        ReconcileShape(s, s.flight.rows, e.lookup);
        TimesMore(s.log, Authorised(n), Wrote(k));
        TimesMore(s.log, Authorised(n), Authorised(k));
        SameTail(s.log, Authorised(n), Authorised(k));
      }
      SameTail(s.log, Authorised(k), Authorised(k));
      SameTail(s.log, Wrote(k), Wrote(k));
    } else if !Speaks(s, e) {
      QuietLog(s, e);
      SameTail(s.log, Authorised(k), Authorised(k));
      SameTail(s.log, Wrote(k), Wrote(k));
    } else {
      SpokenCounts(s, e, k);
    }
  }

  /** An entry that is no authorisation counts as one call, if it is one. */
  lemma EntryCounts(log: seq<LogEntry>, x: LogEntry, k: Key)
    requires !x.Authorised?
    ensures Times(log + [x], Wrote(k)) == Times(log, Wrote(k)) + (if x == Wrote(k) then 1 else 0)
    ensures Times(log + [x], Authorised(k)) == Times(log, Authorised(k)) && log + [x] != log + [Authorised(k)]
  {
    TimesMore(log, x, Wrote(k));
    TimesMore(log, x, Authorised(k));
    SameTail(log, x, Authorised(k));
  }

  lemma SpokenLog(s: Sys, e: Event)
    requires Speaks(s, e) && !e.Looked?
    ensures s.flight.job.phase.WriteRecorded? ==> Step(s, e).log == s.log + [Wrote(s.flight.job.key)]
    ensures s.flight.job.phase.BeforeWrite? ==> Step(s, e).log == if s.live then s.log + [Opened(s.flight.job.key)] else s.log
  {}

  lemma SpokenCounts(s: Sys, e: Event, k: Key)
    requires Speaks(s, e) && !e.Looked?
    ensures Times(Step(s, e).log, Wrote(k)) == Times(s.log, Wrote(k)) + (if Calls(s, e, k) then 1 else 0)
    ensures Times(Step(s, e).log, Authorised(k)) == Times(s.log, Authorised(k)) && !Authorises(s, e, k)
  {
    hide Step;
    var n := s.flight.job.key;
    SpokenLog(s, e);
    if s.flight.job.phase.WriteRecorded? { EntryCounts(s.log, Wrote(n), k); }
    else if s.live { EntryCounts(s.log, Opened(n), k); }
    else { SameTail(s.log, Authorised(k), Authorised(k)); }
  }

  lemma CoveredStep(s: Sys, e: Event, k: Key, granted: bool, lost: bool, losses: nat)
    requires Reachable(s) && Between(s, k, granted, lost) && Covered(s, k, granted || lost, losses)
    ensures Covered(Step(s, e), k, !Calls(s, e, k) && (granted || lost || Authorises(s, e, k) || Loses(s, e, k)),
      losses + if Loses(s, e, k) then 1 else 0)
  {
    hide Step, Run;
    CountsChange(s, e, k);
    if Calls(s, e, k) {
      CallIsOpen(s, e, k);
      TimesZero(s.log, Wrote(k));
    }
    LiveStays(s, e);
  }

  /** Every call of the provider but the first is covered by an authorised retry or by a loss of its own. */
  lemma {:induction false} WritesAreAuthorised(live: bool, paymentHost: string, events: seq<Event>, k: Key)
    ensures var start := Start(live, paymentHost); var s := Run(start, events);
      && Times(s.log, Wrote(k)) <= Times(s.log, Authorised(k)) + Losses(start, events, k) + 1
      && Covered(s, k, Granted(start, events, k) || Lost(start, events, k), Losses(start, events, k))
  {
    hide Step;
    if events != [] {
      var start, before := Start(live, paymentHost), events[..|events| - 1];
      var s := Run(start, before);
      WritesAreAuthorised(live, paymentHost, before, k);
      RunBetween(live, paymentHost, before, k);
      assert Reachable(s);
      CoveredStep(s, events[|events| - 1], k, Granted(start, before, k), Lost(start, before, k), Losses(start, before, k));
    }
  }
}
