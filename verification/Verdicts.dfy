/** What becomes of a candidate after each answer of its evaluation, in terms of the rows alone. */
module Verdicts {
  import opened Wrappers
  import opened Rows
  import opened Planning
  import opened Admission
  import opened Scheduling
  import opened Checkout
  import opened Environment
  import opened Mailbox
  import opened Engine
  import opened Invariants
  import opened EngineInv
  import opened EnginePlan
  import opened Guarantees

  // ----- how one candidate may be left

  /** Only this candidate changes, and of it only what says when it runs next, and for which settings. */
  predicate OnlyItsTurn(d: Db, e: Db, c: CandId) {
    && c in d.cands && c in e.cands && e == d.(cands := d.cands[c := e.cands[c]])
    && var a, b := d.cands[c], e.cands[c];
       b == a.(state := b.state, nextRunAt := b.nextRunAt, subVersion := b.subVersion)
  }

  predicate IsStopped(d: Db, e: Db, c: CandId) { OnlyItsTurn(d, e, c) && e.cands[c].state.Stopped? && e.cands[c].nextRunAt.None? }

  /** It waits until then, unless its watch is over by that time. */
  predicate WaitsUntil(d: Db, e: Db, c: CandId, at: Time, state: Tracking) {
    && OnlyItsTurn(d, e, c)
    && if d.cands[c].watchUntil.Some? && d.cands[c].watchUntil.value <= at then IsStopped(d, e, c)
       else e.cands[c].state == state && e.cands[c].nextRunAt == Some(at)
  }

  /** An unused claim is queued again; whatever else has happened to the candidate stays. */
  predicate IsQueuedAgain(d: Db, e: Db, c: CandId) {
    if c in d.cands && d.cands[c].state.RenewalClaimed?
    then OnlyItsTurn(d, e, c) && e.cands[c].state.Queued? && e.cands[c].nextRunAt.None? && e.cands[c].subVersion == d.cands[c].subVersion
    else e == d
  }

  /** It needs attention, and so does its cycle unless the candidate was only claimed. */
  predicate IsBlocked(d: Db, e: Db, c: CandId) {
    && c in d.cands && c in e.cands
    && var a, k := d.cands[c], Key(c, d.cands[c].cycleNo);
       && e.cands == d.cands[c := a.(state := NeedsAttention, nextRunAt := None)]
       && e == d.(cands := e.cands, cycles := e.cycles)
       && e.cycles == (if k in d.cycles && !a.state.RenewalClaimed? then d.cycles[k := d.cycles[k].(state := CycleAttention)] else d.cycles)
  }

  // ----- what an evaluation asks for

  /** The plan for these seats, with the limit on an order reserved, or the price of the seats if there is none. */
  function Asked(g: Config, t: Task, now: Time, version: nat, seats: seq<SeatId>, total: Money): PlanRequest {
    PlanRequest(t.cand, t.sub, g, if g.maxOrderTotal.Some? then g.maxOrderTotal.value else total, Some(total), seats, now, Some(version))
  }

  predicate LacksLimits(g: Config) { !g.individual && (g.maxTicketPrice.None? || g.maxOrderTotal.None?) }

  /** Seats were found, and nothing keeps them from being planned. */
  ghost predicate GoesThrough(db: Db, r: PlanRequest) {
    Considered(db, r) && !SeatTaken(db, r) && !NoRoom(db, r) && !OverBudget(db, r)
  }

  /** How a candidate is left for which seats were found. */
  ghost predicate PlanEnds(d: Db, e: Db, r: PlanRequest, at: Time) {
    if !Orderly(r) || (MayStart(d, r) && !OwnPlace(d.cands[r.cand], r)) then WaitsUntil(d, e, r.cand, at, WaitingAvailability)
    else if !MayStart(d, r) then IsQueuedAgain(d, e, r.cand)
    else if SeatTaken(d, r) then WaitsUntil(d, e, r.cand, at, WaitingAvailability)
    else if NoRoom(d, r) then IsStopped(d, e, r.cand)
    else if OverBudget(d, r) then WaitsUntil(d, e, r.cand, at, WaitingBudget)
    else Starts(d, e, r, d.cands[r.cand].cycleNo + 1)
  }

  /** How an evaluation leaves its candidate. */
  ghost predicate Ends(d: Db, e: Db, t: Task, g: Config, runNow: Time, now: Time, version: nat, v: Evaluation) {
    match v
    case EvaluationRaises => WaitsUntil(d, e, t.cand, runNow + g.retry, WaitingAvailability)
    case EvaluatedPaused => IsQueuedAgain(d, e, t.cand)
    case EvaluatedWaiting => WaitsUntil(d, e, t.cand, runNow + g.retry, WaitingAvailability)
    case EvaluatedStopped => IsStopped(d, e, t.cand)
    case EvaluatedAttention => IsBlocked(d, e, t.cand)
    case Ready(seats, total) =>
      if LacksLimits(g) then IsBlocked(d, e, t.cand)
      else PlanEnds(d, e, Asked(g, t, now, version, seats, total), runNow + g.retry)
  }

  /** A checkout starts exactly if seats were found, nothing keeps them from being planned, and they cost something. */
  ghost predicate Submits(d: Db, t: Task, g: Config, now: Time, version: nat, v: Evaluation) {
    && v.Ready? && !LacksLimits(g) && v.total.minor > 0
    && GoesThrough(d, Asked(g, t, now, version, v.seats, v.total))
  }

  // ----- the transactions that end a task

  lemma WaitLeaves(d: Db, d0: Db, t: Task, budget: bool, runNow: Time)
    requires OnlyItsTurn(d0, d, t.cand) && d.cands[t.cand].cycleNo == t.prev
    ensures WaitsUntil(d0, ScheduleWait(d, t, budget, runNow), t.cand, runNow + t.retry, if budget then WaitingBudget else WaitingAvailability)
  {}

  lemma StopLeaves(d: Db, d0: Db, t: Task)
    requires OnlyItsTurn(d0, d, t.cand)
    ensures IsStopped(d0, StopTask(d, t), t.cand)
  {}

  lemma ReleaseLeaves(d: Db, t: Task)
    requires t.cand in d.cands && d.cands[t.cand].cycleNo == t.prev
    ensures IsQueuedAgain(d, ReleaseClaim(d, t), t.cand)
  {}

  lemma AttentionLeaves(d: Db, t: Task)
    requires t.cand in d.cands && Tables(d)
    ensures IsBlocked(d, MarkNeedsAttention(d, t), t.cand)
  {
    var k := Key(t.cand, d.cands[t.cand].cycleNo);
    assert k in d.cycles <==> GraphExists(d, k);
  }

  lemma NothingTurns(d: Db, c: CandId)
    requires c in d.cands
    ensures OnlyItsTurn(d, d, c)
  {}

  lemma MovedTurns(d: Db, e: Db, r: PlanRequest, state: Tracking)
    requires OnlyMoves(d, e, r, state)
    ensures OnlyItsTurn(d, e, r.cand) && e.cands[r.cand].cycleNo == d.cands[r.cand].cycleNo
  {}

  // ----- the plan

  /** The verdict the processor reaches over the outcome of a plan. */
  predicate VerdictOf(outcome: PlanOutcome, v: Verdict) {
    match outcome
    case Raised => v == WaitFor(false)
    case SeatUnavailable => v == WaitFor(false)
    case BudgetFull => v == WaitFor(true)
    case LimitReached => v == Halt
    case Planned(_) => v == WaitFor(false)
    case _ => v == Release
  }

  lemma PlanIsJudged(d: Db, outcome: PlanOutcome, r: PlanRequest, t: Task, origin: Origin)
    requires !AfterPlan(d, outcome, r, t, origin).Working? && (outcome.Planned? ==> t.cand in d.cands)
    ensures var f := AfterPlan(d, outcome, r, t, origin);
      f.Dispatching? && f.task == t && f.origin == origin && VerdictOf(outcome, f.verdict)
  {}

  lemma JudgedPlanEnds(d: Db, t: Task, r: PlanRequest, runNow: Time, v: Verdict)
    requires r.config.Valid() && r.cand == t.cand && t.cand in d.cands && d.cands[t.cand].cycleNo == t.prev
    requires VerdictOf(Plan(d, r).1, v)
    ensures PlanEnds(d, Dispatched(Plan(d, r).0, t, runNow, v).0, r, runNow + t.retry)
  {
    hide Plan, ScheduleWait, StopTask, ReleaseClaim, WaitsUntil, IsStopped, IsQueuedAgain, OnlyItsTurn, OnlyMoves, Starts,
      Orderly, MayStart, OwnPlace, SeatTaken, NoRoom, OverBudget;
    var (e, outcome) := Plan(d, r);
    PlanAnswers(d, r);
    PlanLeaves(d, r);
    NothingTurns(d, t.cand);
    match outcome
    case Raised => WaitLeaves(d, d, t, false, runNow);
    case NotFound => ReleaseLeaves(d, t);
    case AlreadyActive => ReleaseLeaves(d, t);
    case SeatUnavailable =>
      MovedTurns(d, e, r, WaitingAvailability);
      WaitLeaves(e, d, t, false, runNow);
    case LimitReached =>
      MovedTurns(d, e, r, SkippedLimit);
      StopLeaves(e, d, t);
    case BudgetFull =>
      MovedTurns(d, e, r, WaitingBudget);
      WaitLeaves(e, d, t, true, runNow);
    case Planned(no) => StartedStays(d, e, t, r, no, runNow);
  }

  /** A started checkout is not put back by the wait that follows a failure. */
  lemma StartedStays(d: Db, e: Db, t: Task, r: PlanRequest, no: nat, runNow: Time)
    requires Starts(d, e, r, no) && r.cand == t.cand && d.cands[t.cand].cycleNo == t.prev
    ensures ScheduleWait(e, t, false, runNow) == e && no == t.prev + 1
  {}

  // ----- the two commits after an evaluation

  lemma RequestNeedsQuote(r: PlanRequest, k: Key, session: SessionId)
    requires Orderly(r) && r.config.Valid()
    ensures FirstRequest(k, session, r).Valid() <==> Quote(r).minor > 0
  {}

  /** The plan is judged: a checkout starts, or the verdict will leave the candidate as it should. */
  lemma PlanIsDecided(d: Db, t: Task, r: PlanRequest, origin: Origin)
    requires r.config.Valid() && r.cand == t.cand && t.cand in d.cands && d.cands[t.cand].cycleNo == t.prev
    ensures var (e, outcome) := Plan(d, r); var f := AfterPlan(e, outcome, r, t, origin);
      && (f.Working? <==> GoesThrough(d, r) && Quote(r).minor > 0)
      && (f.Working? ==> outcome.Planned? && Starts(d, e, r, t.prev + 1) && Begins(f.job, r, t, origin))
      && (!f.Working? ==>
            f.Dispatching? && f.task == t && f.origin == origin && PlanEnds(d, Dispatched(e, t, origin.runNow, f.verdict).0, r, origin.runNow + t.retry))
  {
    hide Plan, Starts, Orderly, MayStart, OwnPlace, SeatTaken, NoRoom, OverBudget, Dispatched, PlanEnds;
    var (e, outcome) := Plan(d, r);
    PlanAnswers(d, r);
    PlanLeaves(d, r);
    if outcome.Planned? {
      StartedStays(d, e, t, r, outcome.cycleNo, origin.runNow);
      PlannedIsDecided(d, e, t, r, origin);
    }
    var f := AfterPlan(e, outcome, r, t, origin);
    if !f.Working? {
      PlanIsJudged(e, outcome, r, t, origin);
      JudgedPlanEnds(d, t, r, origin.runNow, f.verdict);
    }
  }

  /** The job of a checkout that has just been planned. */
  predicate Begins(j: Job, r: PlanRequest, t: Task, origin: Origin) {
    && j.key == Key(t.cand, t.prev + 1) && j.phase.BeforeWrite? && j.task == t && j.origin == origin
    && j.request.seats == r.seats && j.request.expected == Quote(r) && j.request.reserved == r.reserved
  }

  lemma PlannedIsDecided(d: Db, e: Db, t: Task, r: PlanRequest, origin: Origin)
    requires r.config.Valid() && r.cand == t.cand && t.cand in d.cands && d.cands[t.cand].cycleNo == t.prev
    requires Orderly(r) && Starts(d, e, r, t.prev + 1)
    ensures var f := AfterPlan(e, Planned(t.prev + 1), r, t, origin);
      (f.Working? <==> Quote(r).minor > 0) && (f.Working? ==> Begins(f.job, r, t, origin)) && t.cand in e.cands
  {
    hide Orderly;
    RequestNeedsQuote(r, Key(t.cand, t.prev + 1), e.cands[t.cand].session);
  }

  /** What the evaluation of a task comes to: a checkout, or a verdict that leaves the candidate as it should. */
  ghost predicate Decides(d: Db, e: Db, t: Task, g: Config, origin: Origin, now: Time, version: nat, v: Evaluation, f: Flight) {
    && (f.Working? <==> Submits(d, t, g, now, version, v))
    && (f.Working? ==>
          var r := Asked(g, t, now, version, v.seats, v.total); Starts(d, e, r, t.prev + 1) && Begins(f.job, r, t, origin))
    && (!f.Working? ==>
          f.Dispatching? && f.task == t && f.origin == origin && Ends(d, Dispatched(e, t, origin.runNow, f.verdict).0, t, g, origin.runNow, now, version, v))
  }

  lemma EvaluationDecides(s: Sys, v: Evaluation)
    requires Tables(s.db) && s.flight.Evaluating? && TaskReady(s.db, s.flight.task)
    ensures var f := s.flight; var u := Evaluate(s, v);
      Decides(s.db, u.db, f.task, Settings(s.db, f.task.cand), FromRenewal(f.rest, f.runNow), f.now, f.version, v, u.flight)
  {
    hide Tables, Starts, PlanEnds, WaitsUntil, IsStopped, IsQueuedAgain, IsBlocked, GoesThrough, Plan, AfterPlan,
      ScheduleWait, StopTask, ReleaseClaim, MarkNeedsAttention;
    var f := s.flight;
    var t, g, origin := f.task, Settings(s.db, f.task.cand), FromRenewal(f.rest, f.runNow);
    NothingTurns(s.db, t.cand);
    match v
    case EvaluationRaises => WaitLeaves(s.db, s.db, t, false, f.runNow);
    case EvaluatedWaiting => WaitLeaves(s.db, s.db, t, false, f.runNow);
    case EvaluatedPaused => ReleaseLeaves(s.db, t);
    case EvaluatedStopped => StopLeaves(s.db, s.db, t);
    case EvaluatedAttention => AttentionLeaves(s.db, t);
    case Ready(seats, total) =>
      ValidHere(s.db, t);
      if LacksLimits(g) { AttentionLeaves(s.db, t); }
      else { PlanIsDecided(s.db, t, Asked(g, t, f.now, f.version, seats, total), origin); }
  }

  lemma ValidHere(db: Db, t: Task)
    requires Tables(db) && TaskReady(db, t)
    ensures Settings(db, t.cand).Valid() && t.sub in db.subs && db.subs[t.sub].config == Settings(db, t.cand)
  {}

  lemma EvaluatedSteps(s: Sys, v: Evaluation, m: MsgId)
    requires s.flight.Evaluating?
    ensures Step(s, Evaluated(v)) == Evaluate(s, v)
    ensures var u := Evaluate(s, v); u.flight.Dispatching? ==>
      Step(u, Proceed(m)) == Dispatch(u, u.flight.task, u.flight.origin, u.flight.verdict)
  {
    hide Evaluate, Reconcile, ClaimRun, Act, Deliver, JudgeAnswer, Work, Dispatch, Finalize, Reschedule, Resume;
  }

  /**
   The rows after an evaluation and the commit that follows it, in every reachable state: a checkout starts exactly
   when it should, and otherwise the candidate waits, stops, is queued again or needs attention as the answer says.
   */
  lemma EvaluationEnds(s: Sys, v: Evaluation, m: MsgId)
    requires Reachable(s) && s.flight.Evaluating?
    ensures s.flight.task.cand in s.db.cands && s.db.cands[s.flight.task.cand].sub in s.db.subs
    ensures var f := s.flight; var t, g := f.task, Settings(s.db, f.task.cand); var u := Step(s, Evaluated(v));
      && (u.flight.Working? <==> Submits(s.db, t, g, f.now, f.version, v))
      && (u.flight.Working? ==>
            Starts(s.db, u.db, Asked(g, t, f.now, f.version, v.seats, v.total), s.db.cands[t.cand].cycleNo + 1))
      && (!u.flight.Working? ==> Ends(s.db, Step(u, Proceed(m)).db, t, g, f.runNow, f.now, f.version, v))
  {
    hide Reachable, Run, Step, Evaluate, Tables, Starts, Ends, Submits;
    ReachableTask(s);
    ReachableTables(s);
    EvaluationDecides(s, v);
    EvaluatedSteps(s, v, m);
  }
}
