/** When a stopped candidate stays stopped: only a step about the candidate itself can start it again. */
module Stops {
  import opened Wrappers
  import opened Rows
  import opened Planning
  import opened Scheduling
  import opened Checkout
  import opened Environment
  import opened Mailbox
  import opened Engine
  import opened Invariants
  import opened Preservation
  import opened EngineInv
  import opened EngineProof
  import opened EngineSteps
  import opened EnginePlan
  import opened EngineWork
  import opened Guarantees
  import opened Writes

  /** The candidate the booking thread is working on. */
  function Subject(f: Flight): Option<CandId> {
    match f
    case Rescheduling(keys) => if keys == [] then None else Some(keys[0].cand)
    case Reconciling(rows) => if rows == [] then None else Some(rows[0].key.cand)
    case Finalizing(k, _, _) => Some(k.cand)
    case FinalScheduling(k, _, _) => Some(k.cand)
    case Evaluating(t, _, _, _, _) => Some(t.cand)
    case Working(j) => Some(j.key.cand)
    case Dispatching(t, _, _) => Some(t.cand)
    case _ => None
  }

  predicate StoppedIn(db: Db, c: CandId) { c in db.cands && db.cands[c].state.Stopped? }

  lemma AdvanceElsewhere(s: Sys, newMsg: MsgId, c: CandId)
    requires StoppedIn(s.db, c) && Subject(s.flight) != Some(c)
    ensures StoppedIn(Advance(s, newMsg).db, c)
  {
    hide Work;
    match s.flight
    case Working(j) => WorkElsewhere(s, j, newMsg, c);
    case Dispatching(t, origin, v) => DispatchElsewhere(s.db, t, origin.runNow, v, c);
    case _ =>
  }

  lemma RecordElsewhere(db: Db, k: Key, o: Order, now: Time, newMsg: MsgId, c: CandId)
    requires StoppedIn(db, c)
    ensures StoppedIn(RecordOrder(db, k, o, now, newMsg).0, c)
  {}

  lemma AttentionElsewhere(db: Db, k: Key, e: ErrorCode, c: CandId)
    requires StoppedIn(db, c) && k.cand != c
    ensures StoppedIn(IntentNeedsAttention(db, k, e), c)
  {}

  lemma WorkElsewhere(s: Sys, j: Job, newMsg: MsgId, c: CandId)
    requires StoppedIn(s.db, c) && j.key.cand != c
    ensures StoppedIn(Work(s, j, newMsg).db, c)
  {
    if j.phase.Settling? {
      match j.phase.result
      case Accepted(o) => RecordElsewhere(s.db, j.key, o, RecordedAt(s, j), newMsg, c);
      case Refused(_, error) => AttentionElsewhere(s.db, j.key, error, c);
    }
  }

  lemma DispatchElsewhere(db: Db, t: Task, runNow: Time, v: Verdict, c: CandId)
    requires StoppedIn(db, c) && t.cand != c
    ensures StoppedIn(Dispatched(db, t, runNow, v).0, c)
  {}

  lemma PlanElsewhere(db: Db, r: PlanRequest, c: CandId)
    requires r.config.Valid() && StoppedIn(db, c) && r.cand != c
    ensures StoppedIn(Plan(db, r).0, c)
  {
    if Plan(db, r).1.Planned? { PlannedShape(db, r); }
    else if r.cand in db.cands { UnplannedShape(db, r); }
    else { UnknownShape(db, r); }
  }

  lemma EvaluateElsewhere(s: Sys, e: Evaluation, c: CandId)
    requires Tables(s.db) && s.flight.Evaluating? && TaskReady(s.db, s.flight.task)
    requires StoppedIn(s.db, c) && s.flight.task.cand != c
    ensures StoppedIn(Evaluate(s, e).db, c)
  {
    if Plans(s, e) {
      var f := s.flight;
      EvaluateShape(s, e);
      PlanElsewhere(s.db, PlanFor(s, f.task, f.now, f.version, e, Settings(s.db, f.task.cand)), c);
    }
  }

  lemma ClaimElsewhere(s: Sys, runNow: Time, chosen: set<CandId>, tasks: seq<Task>, c: CandId)
    requires StoppedIn(s.db, c)
    ensures StoppedIn(ClaimRun(s, runNow, chosen, tasks).db, c)
  {}

  lemma ActElsewhere(db: Db, x: Action, c: CandId)
    requires StoppedIn(db, c)
    ensures StoppedIn(Act(db, x), c)
  {}

  lemma StepElsewhere(s: Sys, e: Event, c: CandId)
    requires Reachable(s) && StoppedIn(s.db, c) && Subject(s.flight) != Some(c)
    ensures StoppedIn(Step(s, e).db, c)
  {
    hide Reachable, Run, Advance, Evaluate, Reconcile, ClaimRun, Act, Deliver, JudgeAnswer;
    if e.Proceed? { AdvanceElsewhere(s, e.newMsg, c); }
    else if e.Outside? { ActElsewhere(s.db, e.action, c); }
    else if e.Outbox? { DeliverMoves(s.db, e.delivery); }
    else if e.Evaluated? && s.flight.Evaluating? { ReachableTask(s); ReachableTables(s); EvaluateElsewhere(s, e.evaluation, c); }
    else if e.ClaimDue? && s.flight.Claiming? { ClaimElsewhere(s, s.flight.runNow, e.chosen, e.tasks, c); }
    else if e.Looked? && s.flight.Reconciling? && s.flight.rows != [] { LookedElsewhere(s, s.flight.rows, e.lookup, c); }
  }

  lemma LookedElsewhere(s: Sys, rows: seq<Engine.Incomplete>, lookup: Lookup, c: CandId)
    requires rows != [] && rows[0].key.cand != c && StoppedIn(s.db, c)
    ensures StoppedIn(Reconcile(s, rows, lookup).db, c)
  {
    hide Decide, Resolved;
  }

  // ----- steps about the candidate itself

  /** The wait would outlast the watch, so that it stops the candidate instead. */
  predicate TooLate(a: Candidate, t: Task, now: Time) { a.watchUntil.Some? && now + t.retry >= a.watchUntil.value }

  predicate LastCycle(t: Task, no: nat) { t.maxCycles.Some? && no >= t.maxCycles.value }

  /** The transaction of this verdict starts a stopped candidate again. */
  predicate VerdictEndsStop(a: Candidate, t: Task, runNow: Time, v: Verdict) {
    v.Attention? || (v.WaitFor? && a.cycleNo == t.prev && !TooLate(a, t, runNow))
  }

  /** The result is refused: as doubtful, or for good but not in the last cycle. */
  predicate ResultEndsStop(j: Job) {
    && j.phase.Settling? && j.phase.result.Refused?
    && !(j.phase.result.state.CheckoutRejected? && LastCycle(j.task, j.key.no))
  }

  /** The steps that take a stopped candidate out of its stop. */
  predicate EndsStop(s: Sys, e: Event, c: CandId)
    requires c in s.db.cands
  {
    match s.flight
    case Dispatching(t, origin, v) => e.Proceed? && t.cand == c && VerdictEndsStop(s.db.cands[c], t, origin.runNow, v)
    case Working(j) => e.Proceed? && j.key.cand == c && ResultEndsStop(j)
    case Reconciling(rows) =>
      && e.Looked? && rows != [] && rows[0].key.cand == c && rows[0].key in s.db.intents
      && !Decide(s.db, s.paymentHost, rows[0].key, rows[0].started, e.lookup).AllowRetry?
    case _ => false
  }

  lemma HeldKeepsStop(db: Db, t: Task, no: nat, heldAt: Time, c: CandId)
    requires StoppedIn(db, c)
    ensures StoppedIn(ScheduleAfterHold(db, t, no, heldAt).0, c)
  {}

  lemma RepairKeepsStop(s: Sys, newMsg: MsgId, c: CandId)
    requires StoppedIn(s.db, c) && (s.flight.Rescheduling? || s.flight.FinalScheduling? || s.flight.Finalizing?)
    ensures StoppedIn(Advance(s, newMsg).db, c)
  {
    if s.flight.Finalizing? { RecordElsewhere(s.db, s.flight.key, s.flight.order, s.clock, newMsg, c); }
  }

  lemma OwnRefusal(db: Db, k: Key, now: Time, retry: int, stop: bool)
    requires GraphExists(db, k)
    ensures StoppedIn(RejectIntent(db, k, now, retry, stop), k.cand) <==> stop
  {}

  lemma OwnAttention(db: Db, k: Key, e: ErrorCode)
    requires GraphExists(db, k)
    ensures !StoppedIn(IntentNeedsAttention(db, k, e), k.cand)
  {}

  lemma OwnWork(s: Sys, j: Job, newMsg: MsgId)
    requires StoppedIn(s.db, j.key.cand) && GraphExists(s.db, j.key)
    ensures StoppedIn(Work(s, j, newMsg).db, j.key.cand) <==> !ResultEndsStop(j)
  {
    hide RejectIntent, IntentNeedsAttention, RefusedGraph, DoubtfulGraph;
    if j.phase.Settling? {
      match j.phase.result
      case Accepted(o) => RecordElsewhere(s.db, j.key, o, RecordedAt(s, j), newMsg, j.key.cand);
      case Refused(state, error) =>
        OwnRefusal(s.db, j.key, j.now, j.task.retry, LastCycle(j.task, j.key.no));
        OwnAttention(s.db, j.key, error);
    }
  }

  lemma OwnDispatch(db: Db, t: Task, runNow: Time, v: Verdict)
    requires StoppedIn(db, t.cand)
    ensures StoppedIn(Dispatched(db, t, runNow, v).0, t.cand) <==> !VerdictEndsStop(db.cands[t.cand], t, runNow, v)
  {
    hide ScheduleAfterHold, ScheduleWait;
    match v
    case Hold(no, heldAt) => HeldKeepsStop(db, t, no, heldAt, t.cand);
    case WaitFor(budget) => OwnWait(db, t, budget, runNow);
    case _ =>
  }

  lemma OwnWait(db: Db, t: Task, budget: bool, runNow: Time)
    requires StoppedIn(db, t.cand)
    ensures StoppedIn(ScheduleWait(db, t, budget, runNow), t.cand)
       <==> !(db.cands[t.cand].cycleNo == t.prev && !TooLate(db.cands[t.cand], t, runNow))
  {}

  /** A stopped candidate cannot be planned. */
  lemma OwnEvaluation(s: Sys, e: Evaluation)
    requires Tables(s.db) && s.flight.Evaluating? && TaskReady(s.db, s.flight.task) && StoppedIn(s.db, s.flight.task.cand)
    ensures Evaluate(s, e).db == s.db
  {
    if Plans(s, e) { EvaluateShape(s, e); }
  }

  lemma OwnRecovery(s: Sys, rows: seq<Engine.Incomplete>, lookup: Lookup)
    requires rows != [] && RowReady(s.db, rows[0]) && GraphExists(s.db, rows[0].key) && StoppedIn(s.db, rows[0].key.cand)
    ensures var k := rows[0].key;
      (StoppedIn(Reconcile(s, rows, lookup).db, k.cand) <==> Decide(s.db, s.paymentHost, k, rows[0].started, lookup).AllowRetry?)
  {
    ReconcileShape(s, rows, lookup);
  }

  lemma OwnAdvance(s: Sys, newMsg: MsgId, c: CandId)
    requires Reachable(s) && StoppedIn(s.db, c) && Subject(s.flight) == Some(c)
    ensures StoppedIn(Advance(s, newMsg).db, c) <==> !EndsStop(s, Proceed(newMsg), c)
  {
    hide Step, Run;
    match s.flight
    case Working(j) =>
      ReachableJob(s);
      OwnWork(s, j, newMsg);
    case Dispatching(t, origin, v) => OwnDispatch(s.db, t, origin.runNow, v);
    case _ => if s.flight.Rescheduling? || s.flight.FinalScheduling? || s.flight.Finalizing? { RepairKeepsStop(s, newMsg, c); }
  }

  lemma OwnLooked(s: Sys, rows: seq<Engine.Incomplete>, lookup: Lookup)
    requires Reachable(s) && s.flight == Reconciling(rows) && rows != [] && StoppedIn(s.db, rows[0].key.cand)
    ensures StoppedIn(Step(s, Looked(lookup)).db, rows[0].key.cand) <==> !EndsStop(s, Looked(lookup), rows[0].key.cand)
  {
    hide Advance, Evaluate, Reconcile, ClaimRun, JudgeAnswer, Resume;
    ReachableRecovery(s);
    ReachableRow(s, rows[0].key);
    OwnRecovery(s, rows, lookup);
  }

  lemma StepOwn(s: Sys, e: Event, c: CandId)
    requires Reachable(s) && StoppedIn(s.db, c) && Subject(s.flight) == Some(c)
    ensures StoppedIn(Step(s, e).db, c) <==> !EndsStop(s, e, c)
  {
    hide Advance, Evaluate, Reconcile, ClaimRun, Act, Deliver, JudgeAnswer;
    if e.Proceed? { OwnAdvance(s, e.newMsg, c); }
    else if e.Outside? { ActElsewhere(s.db, e.action, c); }
    else if e.Outbox? { DeliverMoves(s.db, e.delivery); }
    else if e.Evaluated? && s.flight.Evaluating? { ReachableTask(s); ReachableTables(s); OwnEvaluation(s, e.evaluation); }
    else if e.Looked? && s.flight.Reconciling? { OwnLooked(s, s.flight.rows, e.lookup); }
  }

  /** The exact steps that take a stopped candidate out of its stop, in every reachable state. */
  lemma StopEndsExactly(s: Sys, e: Event, c: CandId)
    requires Reachable(s) && StoppedIn(s.db, c)
    ensures StoppedIn(Step(s, e).db, c) <==> !EndsStop(s, e, c)
  {
    hide Step, Run;
    if Subject(s.flight) == Some(c) { StepOwn(s, e, c); } else { StepElsewhere(s, e, c); }
  }

  predicate KeepsStop(s: Sys, e: Event, c: CandId) { c in s.db.cands ==> !EndsStop(s, e, c) }

  ghost predicate NeverEnds(s: Sys, events: seq<Event>, c: CandId) {
    forall n :: 0 <= n < |events| ==> KeepsStop(Run(s, events[..n]), events[n], c)
  }

  /** So a stop lasts over every run in which no such step happens. */
  lemma {:induction false} StopLasts(s: Sys, events: seq<Event>, c: CandId)
    requires Reachable(s) && StoppedIn(s.db, c) && NeverEnds(s, events, c)
    ensures StoppedIn(Run(s, events).db, c)
  {
    hide Step;
    if events != [] {
      var before, last := events[..|events| - 1], |events| - 1;
      forall n | 0 <= n < |before| ensures KeepsStop(Run(s, before[..n]), before[n], c) {
        assert before[..n] == events[..n];
      }
      StopLasts(s, before, c);
      assert KeepsStop(Run(s, events[..last]), events[last], c);
      StillReachable(s, before);
      StopEndsExactly(Run(s, before), events[last], c);
    }
  }
}
