/** How often a checkout reaches the provider, counted against the retries that recovery authorised. */
module Writes {
  import opened Wrappers
  import opened Rows
  import opened Planning
  import opened Scheduling
  import opened Checkout
  import opened Environment
  import opened Mailbox
  import opened Engine
  import opened Invariants
  import opened Preservation
  import opened PlanProof
  import opened EngineInv
  import opened EngineProof
  import opened EngineSteps
  import opened EnginePlan
  import opened EngineWork
  import opened EngineRuns
  import opened History
  import opened Guarantees

  function Times(log: seq<LogEntry>, x: LogEntry): nat {
    if log == [] then 0
    else Times(log[..|log| - 1], x) + (if log[|log| - 1] == x then 1 else 0)
  }

  lemma TimesMore(log: seq<LogEntry>, y: LogEntry, x: LogEntry)
    ensures Times(log + [y], x) == Times(log, x) + (if y == x then 1 else 0)
  {}

  lemma {:induction false} TimesZero(log: seq<LogEntry>, x: LogEntry)
    ensures Times(log, x) == 0 <==> x !in log
  {
    if log != [] {
      TimesZero(log[..|log| - 1], x);
      assert log == log[..|log| - 1] + [log[|log| - 1]];
    }
  }

  // ----- authorised repetitions

  /** A second write of a checkout follows a retry authorised after the first opening. */
  lemma RepeatedWriteIsAuthorised(s: Sys, i: nat, j: nat, k: Key)
    requires Reachable(s) && i < j < |s.log| && s.log[i] == Wrote(k) && s.log[j] == Wrote(k)
    ensures exists a, b :: 0 <= a < b < j && s.log[a] == Opened(k) && s.log[b] == Authorised(k)
  {
    hide Step, Run;
    ReachableHolds(s);
    assert AuthorisedIn(s.log[..j], k);
    var a, b :| 0 <= a < b < |s.log[..j]| && s.log[..j][a] == Opened(k) && s.log[..j][b] == Authorised(k);
    assert s.log[a] == Opened(k) && s.log[b] == Authorised(k);
  }

  // ----- counting

  predicate Retryable(db: Db, k: Key) { k in db.intents && db.intents[k].state.RetryAllowed? }

  /** The provider was called for `k`, and no later stage is committed yet. */
  predicate InDoubt(s: Sys, k: Key) {
    s.flight.Working? && s.flight.job.key == k && (s.flight.job.phase.AtProvider? || s.flight.job.phase.Judged?)
  }

  predicate AboutToWrite(s: Sys, k: Key) { s.flight.Working? && s.flight.job.key == k && s.flight.job.phase.WriteRecorded? }

  /** The thread loses a repeated write between the call and the commit that follows it. */
  predicate Disturbs(s: Sys, e: Event) {
    && (e.Crash? || e.Interrupt? || e.ProcessorRaises?)
    && s.flight.Working? && InDoubt(s, s.flight.job.key) && Retryable(s.db, s.flight.job.key)
  }

  // ----- which steps allow a retry

  lemma AcceptedMarks(s: Sys, j: Job, o: Order, newMsg: MsgId, n: Key)
    requires Tables(s.db) && AllRows(s.db) && JobReady(s, j) && j.phase == Settling(Accepted(o))
    requires newMsg !in s.db.msgs && Dated(s.db.cycles, s.mark)
    ensures Retryable(Work(s, j, newMsg).db, n) ==> Retryable(s.db, n)
  {
    hide Work, RecordOrder, Tables, AllRows;
    AcceptedReady(s.db, j.key, o, RecordedAt(s, j), newMsg, s.mark);
    AcceptedShape(s, j, o, newMsg);
  }

  lemma RefusedMarks(s: Sys, j: Job, newMsg: MsgId, n: Key)
    requires GraphExists(s.db, j.key) && j.phase.Settling? && j.phase.result.Refused?
    requires Dated(s.db.cycles, s.mark) && j.now <= s.mark
    ensures Retryable(Work(s, j, newMsg).db, n) ==> Retryable(s.db, n)
  {
    hide RejectIntent, IntentNeedsAttention, RefusedGraph, DoubtfulGraph;
    if j.phase.result.state.CheckoutRejected? {
      RefusedShape(s.db, j.key, j.now, j.task.retry, j.task.maxCycles.Some? && j.key.no >= j.task.maxCycles.value, s.mark);
    } else {
      DoubtfulShape(s.db, j.key, j.phase.result.error);
    }
  }

  lemma WorkMarks(s: Sys, j: Job, newMsg: MsgId, n: Key)
    requires Tables(s.db) && AllRows(s.db) && JobReady(s, j) && Dated(s.db.cycles, s.mark)
    requires !j.phase.BeforeWrite?
    ensures Retryable(Work(s, j, newMsg).db, n) ==> Retryable(s.db, n)
  {
    hide Tables, CandidateInv, AllRows, RowsAt, RowInv;
    match j.phase
    case Judged(stage, _) => StagedMarks(s.db, j.key, stage, s.clock);
    case Settling(result) =>
      if result.Refused? { RefusedMarks(s, j, newMsg, n); }
      else if newMsg !in s.db.msgs { AcceptedMarks(s, j, result.order, newMsg, n); }
    case _ =>
  }

  lemma RecoveryMarks(s: Sys, newMsg: MsgId, n: Key)
    requires Tables(s.db) && AllRows(s.db) && FlightInv(s) && !Booted(s.flight)
    ensures Retryable(Advance(s, newMsg).db, n) ==> Retryable(s.db, n)
  {
    hide Work;
    var f := s.flight;
    match f
    case Rescheduling(keys) =>
      if keys != [] {
        assert RepairReady(s.db, keys[0]) && RowsAt(s.db, keys[0]);
        var heldAt := s.db.orders[keys[0]].heldAt;
        RescheduleShape(s, keys[0], heldAt, Rescheduling(keys[1..]));
        HeldMarks(s.db, keys[0], TaskOf(s.db, keys[0]), heldAt);
      }
    case Finalizing(k, o, rows) => if newMsg !in s.db.msgs { FinalizeReady(s.db, k, o, rows, s.clock, newMsg); }
    case FinalScheduling(k, heldAt, rows) =>
      assert RowsAt(s.db, k);
      RescheduleShape(s, k, heldAt, Reconciling(rows));
      HeldMarks(s.db, k, TaskOf(s.db, k), heldAt);
    case _ =>
  }

  lemma AdvanceMarks(s: Sys, newMsg: MsgId, n: Key)
    requires Tables(s.db) && AllRows(s.db) && FlightInv(s) && Dated(s.db.cycles, s.mark)
    requires !(s.flight.Working? && s.flight.job.phase.BeforeWrite?)
    ensures Retryable(Advance(s, newMsg).db, n) ==> Retryable(s.db, n)
  {
    hide Tables, CandidateInv;
    var f := s.flight;
    if !Booted(f) { RecoveryMarks(s, newMsg, n); }
    else if f.Working? { WorkMarks(s, f.job, newMsg, n); }
    else if f.Dispatching? { DispatchedMild(s.db, f.task, f.origin.runNow, f.verdict); }
  }

  lemma EvaluateMarks(s: Sys, e: Evaluation, n: Key)
    requires Tables(s.db) && s.flight.Evaluating? && TaskReady(s.db, s.flight.task)
    ensures Retryable(Evaluate(s, e).db, n) ==> Retryable(s.db, n)
  {
    if Plans(s, e) {
      var f := s.flight;
      EvaluateShape(s, e);
      PlanMarks(s.db, PlanFor(s, f.task, f.now, f.version, e, Settings(s.db, f.task.cand)));
    }
  }

  /** The steps at which the thread opens or makes a provider write, or learns about one. */
  predicate Speaks(s: Sys, e: Event) {
    || e.Looked?
    || (e.Proceed? && s.flight.Working? && (s.flight.job.phase.BeforeWrite? || s.flight.job.phase.WriteRecorded?))
  }

  lemma CommitMarks(s: Sys, e: Event, n: Key)
    requires Tables(s.db) && AllRows(s.db) && Side(s) && (e.Proceed? || e.Evaluated? || e.ClaimDue?) && !Speaks(s, e)
    ensures Retryable(Step(s, e).db, n) ==> Retryable(s.db, n)
  {
    hide Advance, Evaluate, Claim, Tables, AllRows;
    if e.Proceed? { AdvanceMarks(s, e.newMsg, n); }
    else if e.Evaluated? && s.flight.Evaluating? { EvaluateMarks(s, e.evaluation, n); }
    else if e.ClaimDue? && s.flight.Claiming? { ClaimReleased(s.db, s.flight.runNow, e.chosen, s.mark); }
  }

  lemma QuietMarks(s: Sys, e: Event, n: Key)
    requires Tables(s.db) && AllRows(s.db) && Side(s) && !Speaks(s, e)
    ensures Retryable(Step(s, e).db, n) ==> Retryable(s.db, n)
  {
    hide Advance, Evaluate, Reconcile, ClaimRun, Act, Deliver, JudgeAnswer, CandidateInv, Untouched, AllRows;
    if e.Outside? { ActCalm(s.db, e.action); }
    else if e.Outbox? { DeliverCalm(s.db, e.delivery); }
    else if e.Proceed? || e.Evaluated? || e.ClaimDue? { CommitMarks(s, e, n); }
  }

  lemma QuietLog(s: Sys, e: Event)
    requires !Speaks(s, e)
    ensures Step(s, e).log == s.log
  {
    hide Plan, WithCycle, Claimable;
  }

  // ----- one step

  lemma DoubtStays(s: Sys, e: Event, k: Key)
    requires FlightInv(s) && InDoubt(s, k) && Retryable(s.db, k) && !Disturbs(s, e)
    ensures InDoubt(Step(s, e), k) || !Retryable(Step(s, e).db, k)
  {
    if e.Proceed? && s.flight.job.phase.Judged? {
      StagedShape(s.db, k, s.flight.job.phase.stage, s.clock);
    }
  }

  /** The running checkout is ready, and its write mark follows its state. */
  ghost predicate JobReadyNow(s: Sys) {
    s.flight.Working? ==>
      var j := s.flight.job;
      && JobReady(s, j) && (s.db.intents[j.key].state.Pending? ==> s.db.intents[j.key].writeStartedAt.None?)
      && (Open(s.db.intents[j.key].state) ==> s.db.intents[j.key].writeStartedAt.Some?)
  }

  lemma JobIsReady(s: Sys)
    requires Tables(s.db) && AllRows(s.db) && FlightInv(s)
    ensures JobReadyNow(s)
  {}

  // ----- a provider that cannot be asked

  lemma AuthorisedByAbsence(s: Sys, e: Event, k: Key)
    requires Reachable(s) && Times(Step(s, e).log, Authorised(k)) > Times(s.log, Authorised(k))
    ensures e == Looked(NotFoundThere)
  {
    hide *;
    if e.Looked? {
      LookedLog(s, e.lookup);
    } else if !Speaks(s, e) {
      QuietLog(s, e);
    } else {
      SpokenAuthorises(s, e, k);
    }
  }

  lemma SpokenAuthorises(s: Sys, e: Event, k: Key)
    requires Speaks(s, e) && !e.Looked?
    ensures Times(Step(s, e).log, Authorised(k)) == Times(s.log, Authorised(k))
  {
    TimesMore(s.log, Opened(s.flight.job.key), Authorised(k));
    TimesMore(s.log, Wrote(s.flight.job.key), Authorised(k));
  }

  lemma LookedLog(s: Sys, lookup: Lookup)
    requires Reachable(s)
    ensures Step(s, Looked(lookup)).log != s.log ==> lookup.NotFoundThere?
  {
    hide Advance, Evaluate, Reconcile, ClaimRun, Act, Deliver, JudgeAnswer;
    ReachableRecovery(s);
    if s.flight.Reconciling? && s.flight.rows != [] { ReconcileShape(s, s.flight.rows, lookup); }
  }

  lemma ReachableRecovery(s: Sys)
    requires Reachable(s)
    ensures s.flight.Reconciling? && s.flight.rows != [] ==> RowReady(s.db, s.flight.rows[0])
  {
    hide Step, Run;
    ReachableHolds(s);
  }

  lemma {:induction false} NeverAuthorised(live: bool, paymentHost: string, events: seq<Event>, k: Key)
    requires Looked(NotFoundThere) !in events
    ensures Times(Run(Start(live, paymentHost), events).log, Authorised(k)) == 0
  {
    hide Step;
    if events != [] {
      var before := events[..|events| - 1];
      NeverAuthorised(live, paymentHost, before, k);
      NotAuthorisedNow(live, paymentHost, before, events[|events| - 1], k);
    }
  }

  lemma NotAuthorisedNow(live: bool, paymentHost: string, events: seq<Event>, e: Event, k: Key)
    requires e != Looked(NotFoundThere)
    ensures var s := Run(Start(live, paymentHost), events); Times(Step(s, e).log, Authorised(k)) <= Times(s.log, Authorised(k))
  {
    hide Step, Run;
    var s := Run(Start(live, paymentHost), events);
    assert Reachable(s);
    if Times(Step(s, e).log, Authorised(k)) > Times(s.log, Authorised(k)) { AuthorisedByAbsence(s, e, k); }
  }

  /** When recovery never learns that an order is absent, no checkout reaches the provider twice. */
  lemma WrittenAtMostOnce(live: bool, paymentHost: string, events: seq<Event>, i: nat, j: nat, k: Key)
    requires Looked(NotFoundThere) !in events
    ensures var log := Run(Start(live, paymentHost), events).log;
      i < |log| && j < |log| && log[i] == Wrote(k) && log[j] == Wrote(k) ==> i == j
  {
    hide Step, Run;
    var s := Run(Start(live, paymentHost), events);
    NeverAuthorised(live, paymentHost, events, k);
    TimesZero(s.log, Authorised(k));
    assert Reachable(s);
    if i < |s.log| && j < |s.log| && s.log[i] == Wrote(k) && s.log[j] == Wrote(k) && i != j {
      RepeatedWriteIsAuthorised(s, if i < j then i else j, if i < j then j else i, k);
    }
  }

  // ----- a repeated write that is lost

  /** The next run loads the checkout again. */
  lemma LostIsReloaded(s: Sys, m: MsgId)
    requires Reachable(s) && s.live && s.flight.Working? && Disturbs(s, Interrupt)
    requires Resumable(s.db, s.flight.job.key, s.clock)
    ensures var k := s.flight.job.key; var u := Step(Step(Step(s, Interrupt), StartRun([k])), Proceed(m));
      u.live && u.flight.Working? && u.flight.job.key == k && u.flight.job.phase.BeforeWrite? && u.log == s.log
  {
    hide Work, Reconcile, Dispatch, Finalize, Reschedule, Evaluate, ClaimRun, Act, Deliver, JudgeAnswer;
    var k := s.flight.job.key;
    var s1 := Step(s, Interrupt);
    assert s1 == Go(s, Idle);
    assert Step(s1, StartRun([k])) == s.(flight := Resuming([k], s.clock), mark := s.clock);
    ReachableJob(s);
  }

  lemma ReloadedIsWritten(s: Sys, m: MsgId)
    requires s.live && s.flight.Working? && s.flight.job.phase.BeforeWrite?
    ensures var k := s.flight.job.key; Step(Step(s, Proceed(m)), Proceed(m)).log == s.log + [Opened(k), Wrote(k)]
  {}

  /**
   A repeated write leaves its checkout as open to another one as before: if the thread loses it in doubt, the
   next run calls the provider again without asking recovery.
   */
  lemma LostRepetitionIsRepeated(s: Sys, m: MsgId)
    requires Reachable(s) && s.live && s.flight.Working? && Disturbs(s, Interrupt)
    requires Resumable(s.db, s.flight.job.key, s.clock)
    ensures var k := s.flight.job.key; var u := Run(s, [Interrupt, StartRun([k]), Proceed(m), Proceed(m), Proceed(m)]);
      && u.log == s.log + [Opened(k), Wrote(k)]
      && Times(u.log, Wrote(k)) == Times(s.log, Wrote(k)) + 1
      && Times(u.log, Authorised(k)) == Times(s.log, Authorised(k))
  {
    hide *;
    var k := s.flight.job.key;
    LostIsReloaded(s, m);
    ReloadedIsWritten(Step(Step(Step(s, Interrupt), StartRun([k])), Proceed(m)), m);
    RunSteps(s, [Interrupt, StartRun([k]), Proceed(m), Proceed(m), Proceed(m)]);
    TimesTwice(s.log, k);
  }

  lemma TimesTwice(log: seq<LogEntry>, k: Key)
    ensures Times(log + [Opened(k), Wrote(k)], Wrote(k)) == Times(log, Wrote(k)) + 1
    ensures Times(log + [Opened(k), Wrote(k)], Authorised(k)) == Times(log, Authorised(k))
  {
    assert log + [Opened(k), Wrote(k)] == log + [Opened(k)] + [Wrote(k)];
    TimesMore(log, Opened(k), Wrote(k));
    TimesMore(log, Opened(k), Authorised(k));
    TimesMore(log + [Opened(k)], Wrote(k), Wrote(k));
    TimesMore(log + [Opened(k)], Wrote(k), Authorised(k));
  }

  lemma RunSteps(s: Sys, events: seq<Event>)
    requires |events| == 5
    ensures Run(s, events) == Step(Step(Step(Step(Step(s, events[0]), events[1]), events[2]), events[3]), events[4])
  {
    hide Step;
    assert events[..4][..3] == events[..3] && events[..3][..2] == events[..2] && events[..2][..1] == events[..1];
    assert events[..1][..0] == [];
    assert Run(s, []) == s;
    assert Run(s, events[..1]) == Step(s, events[0]);
    assert Run(s, events[..2]) == Step(Run(s, events[..1]), events[1]);
    assert Run(s, events[..3]) == Step(Run(s, events[..2]), events[2]);
    assert Run(s, events[..4]) == Step(Run(s, events[..3]), events[3]);
  }

  /** Recording the start of a write leaves the checkout open to be resumed exactly when it was a repeated write. */
  lemma OpenedStaysResumable(s: Sys, k: Key, now: Time)
    requires Reachable(s) && k in s.db.intents && StageAllowed(s.db.intents[k], WriteStarted)
    ensures var e := RecordStage(s.db, k, WriteStarted, now);
      && k in e.intents
      && (e.intents[k].state.Pending? || e.intents[k].state.RetryAllowed? <==> s.db.intents[k].writeStartedAt.Some?)
  {
    hide Step, Run;
    ReachableRow(s, k);
  }
}
