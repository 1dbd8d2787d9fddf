/**
 The live booking engine as a transition system.

 The booking worker is one thread; `Flight` is where it stands between two commits. Every event is one commit,
 one answer from outside, or an interruption. A crash drops the flight and keeps the tables.
 */
module Engine {
  import opened Wrappers
  import opened Rows
  import opened Planning
  import opened Scheduling
  import opened Checkout
  import opened Environment
  import opened Mailbox

  datatype Incomplete = Incomplete(key: Key, started: bool)

  /** Which loop a checkout belongs to, and what that loop has left to do. */
  datatype Origin =
    | FromRenewal(rest: seq<Task>, runNow: Time)
    | FromResume(keys: seq<Key>, runNow: Time)

  datatype Phase =
    | BeforeWrite                                       // the intent is loaded
    | WriteRecorded                                     // the start of the write is committed
    | AtProvider                                        // the transport was called
    | Judged(stage: Stage, result: CheckoutResult)      // the answer is judged, its last stage not yet committed
    | Settling(result: CheckoutResult)                  // the last stage is committed

  datatype Job = Job(key: Key, request: Request, task: Task, origin: Origin, phase: Phase, now: Time)

  datatype Verdict = Hold(no: nat, heldAt: Time) | WaitFor(budget: bool) | Attention | Halt | Release | Nothing

  datatype Flight =
    | Down
    | Rescheduling(keys: seq<Key>)
    | Reconciling(rows: seq<Incomplete>)
    | Finalizing(key: Key, order: Order, rows: seq<Incomplete>)
    | FinalScheduling(key: Key, heldAt: Time, rows: seq<Incomplete>)
    | Idle
    | Resuming(queue: seq<Key>, runNow: Time)
    | Claiming(runNow: Time)
    | Renewing(tasks: seq<Task>, runNow: Time)
    | Evaluating(task: Task, rest: seq<Task>, runNow: Time, now: Time, version: nat)
    | Working(job: Job)
    | Dispatching(task: Task, origin: Origin, verdict: Verdict)

  datatype LogEntry = Opened(key: Key) | Wrote(key: Key) | Authorised(key: Key)

  /** `mark` is the latest clock value the booking thread has read. */
  datatype Sys = Sys(
    live: bool, paymentHost: string, db: Db, flight: Flight, log: seq<LogEntry>, clock: Time, mark: Time)

  datatype Answer = Observed(o: Observation) | TimedOut | TransportFails

  datatype Lookup = Found(o: Observation) | NotFoundThere | UnknownThere | UnsupportedThere | LookupTimesOut

  datatype Evaluation =
    | EvaluationRaises | EvaluatedPaused | EvaluatedWaiting | EvaluatedStopped | EvaluatedAttention
    | Ready(seats: seq<SeatId>, total: Money)

  datatype Event =
    | Tick(t: Time)
    | Crash
    | Interrupt                                         // an exception leaves the worker loop
    | ProcessorRaises                                   // an exception leaves one renewal task
    | Boot(keys: seq<Key>)
    | ListIncomplete(rows: seq<Incomplete>)
    | Looked(lookup: Lookup)
    | StartRun(queue: seq<Key>)
    | ClaimDue(chosen: set<CandId>, tasks: seq<Task>)
    | LoadContext
    | Evaluated(evaluation: Evaluation)
    | Answered(answer: Answer)
    | Proceed(newMsg: MsgId)                            // the thread's next commit, when nothing outside decides it
    | Outside(action: Action)
    | Outbox(delivery: Delivery)

  const NoDb := Db(map[], map[], map[], map[], map[], map[], map[], map[], map[])

  function Start(live: bool, paymentHost: string): Sys { Sys(live, paymentHost, NoDb, Down, [], 0, 0) }

  // ----- the queries a loop starts from

  predicate Unscheduled(db: Db, k: Key) {
    k in db.intents && k in db.cycles && k in db.orders && db.intents[k].state.Confirmed? && db.cycles[k].dueAt.None?
  }

  predicate Unfinished(s: IntentState) { s.Pending? || s.WriteOpen? || s.Unknown? || s.Validated? }

  predicate Resumable(db: Db, k: Key, now: Time) {
    && GraphExists(db, k) && db.cands[k.cand].sub in db.subs && db.cands[k.cand].session in db.sessions
    && var a := db.cands[k.cand]; var b := db.subs[a.sub];
       && (db.intents[k].state.Pending? || db.intents[k].state.RetryAllowed?)
       && a.state.Submitting? && a.live && a.cycleNo == k.no
       && a.subVersion == b.version && b.enabled && !b.deleted
       && db.sessions[a.session].startsAt > now
       && (a.watchUntil.None? || a.watchUntil.value > now)
  }

  /** The rows of a query, each once, in some order. */
  predicate Lists(keys: seq<Key>, all: set<Key>) {
    Distinct(keys) && (forall i :: 0 <= i < |keys| ==> keys[i] in all) && (forall k :: k in all ==> k in keys)
  }

  function UnscheduledKeys(db: Db): set<Key> { set k | k in db.intents && Unscheduled(db, k) }

  predicate ListsIncomplete(db: Db, rows: seq<Incomplete>) {
    && (forall i, j :: 0 <= i < j < |rows| ==> rows[i].key != rows[j].key)
    && (forall i :: 0 <= i < |rows| ==>
          && rows[i].key in db.intents && Unfinished(db.intents[rows[i].key].state)
          && rows[i].started == db.intents[rows[i].key].writeStartedAt.Some?)
    && (forall k :: k in db.intents && Unfinished(db.intents[k].state) ==> exists i :: 0 <= i < |rows| && rows[i].key == k)
  }

  /** At most one batch of resumable intents, in some order. */
  predicate ListsResumable(db: Db, queue: seq<Key>, now: Time) {
    Distinct(queue) && forall i :: 0 <= i < |queue| ==> Resumable(db, queue[i], now)
  }

  /** The renewal task rebuilt from the tables for the checkout of cycle `k`. */
  function TaskOf(db: Db, k: Key): Task
    requires k.cand in db.cands && db.cands[k.cand].sub in db.subs && k.no >= 1
  {
    MakeTask(k.cand, db.cands[k.cand].sub, k.no - 1, db.subs[db.cands[k.cand].sub].config)
  }

  predicate HasTask(db: Db, k: Key) { k.cand in db.cands && db.cands[k.cand].sub in db.subs && k.no >= 1 }

  // ----- the steps of the booking thread

  function To(s: Sys, db: Db, f: Flight): Sys { s.(db := db, flight := f) }

  function Go(s: Sys, f: Flight): Sys { s.(flight := f) }

  /** The decision about one interrupted intent: only an unstarted write, or proof of absence, allows a retry. */
  function Decide(db: Db, paymentHost: string, k: Key, started: bool, lookup: Lookup): Disposition
    requires k in db.intents && k.cand in db.cands
  {
    if !started then AllowRetry
    else match lookup
      case LookupTimesOut => Block(TransportTimeout)
      case NotFoundThere => AllowRetry
      case UnsupportedThere => Block(Unsupported)
      case UnknownThere => Block(PartialResult)
      case Found(o) =>
        var r := Validate(LoadRequest(db, k), o, paymentHost);
        if r.Accepted? then ConfirmFound(r.order) else Block(r.error)
  }

  function Reconcile(s: Sys, rows: seq<Incomplete>, lookup: Lookup): Sys
    requires rows != []
  {
    var k := rows[0].key;
    if k !in s.db.intents || k.cand !in s.db.cands then Go(s, Down)
    else
      var d := Decide(s.db, s.paymentHost, k, rows[0].started, lookup);
      var t := To(s, ApplyRecovery(s.db, k, d),
                  if d.ConfirmFound? then Finalizing(k, d.order, rows[1..]) else Reconciling(rows[1..]));
      if d.AllowRetry? && s.db.intents[k].writeStartedAt.Some? then t.(log := t.log + [Authorised(k)]) else t
  }

  /** One row of a repair: the confirmed cycle is scheduled exactly as after a hold. */
  function Reschedule(s: Sys, k: Key, heldAt: Time, next: Flight): Sys {
    if !HasTask(s.db, k) then Go(s, Down)
    else
      var (e, outcome) := ScheduleAfterHold(s.db, TaskOf(s.db, k), k.no, heldAt);
      if outcome.Scheduled? then To(s, e, next) else Go(s, Down)
  }

  /** What a loop turns to after a task. */
  function Next(origin: Origin): Flight {
    match origin
    case FromRenewal(rest, runNow) => Renewing(rest, runNow)
    case FromResume(keys, runNow) => Resuming(keys, runNow)
  }

  /** The transaction a loop runs once a task's outcome is known; only scheduling a hold can fail. */
  function Dispatched(db: Db, task: Task, runNow: Time, verdict: Verdict): (Db, bool) {
    match verdict
    case Hold(no, heldAt) => var (e, outcome) := ScheduleAfterHold(db, task, no, heldAt); (e, outcome.Scheduled?)
    case WaitFor(budget) => (ScheduleWait(db, task, budget, runNow), true)
    case Attention => (MarkNeedsAttention(db, task), true)
    case Halt => (StopTask(db, task), true)
    case Release => (ReleaseClaim(db, task), true)
    case Nothing => (db, true)
  }

  function Dispatch(s: Sys, task: Task, origin: Origin, verdict: Verdict): Sys {
    var (e, ok) := Dispatched(s.db, task, origin.runNow, verdict);
    To(s, e, if ok then Next(origin) else Idle)
  }

  /** A confirmed purchase found by recovery is recorded before it is scheduled. */
  ghost function Finalize(s: Sys, k: Key, o: Order, rows: seq<Incomplete>, newMsg: MsgId): Sys {
    var (e, outcome) := RecordOrder(s.db, k, o, s.clock, newMsg);
    if outcome.Recorded? then To(s, e, FinalScheduling(k, o.heldAt, rows)) else Go(s, Down)
  }

  ghost function ClaimRun(s: Sys, runNow: Time, chosen: set<CandId>, tasks: seq<Task>): Sys {
    if (forall c :: c in chosen ==> Due(s.db, c, runNow)) && ClaimedTasks(s.db, runNow, chosen, tasks)
    then To(s, Claim(s.db, runNow, chosen), Renewing(tasks, runNow)) else s
  }

  /** A failed task is retried later; a failed resumed checkout ends the run. */
  function Raise(s: Sys, task: Task, origin: Origin): Sys {
    match origin
    case FromRenewal(_, _) => Go(s, Dispatching(task, origin, WaitFor(false)))
    case FromResume(_, _) => Go(s, Idle)
  }

  function PlanFor(s: Sys, task: Task, now: Time, version: nat, e: Evaluation, g: Config): PlanRequest
    requires e.Ready?
  {
    PlanRequest(task.cand, task.sub, g, if g.maxOrderTotal.Some? then g.maxOrderTotal.value else e.total,
                Some(e.total), e.seats, now, Some(version))
  }

  ghost function Evaluate(s: Sys, e: Evaluation): Sys
    requires s.flight.Evaluating?
  {
    var f := s.flight;
    var origin := FromRenewal(f.rest, f.runNow);
    match e
    case EvaluationRaises => Go(s, Dispatching(f.task, origin, WaitFor(false)))
    case EvaluatedPaused => Go(s, Dispatching(f.task, origin, Release))
    case EvaluatedWaiting => Go(s, Dispatching(f.task, origin, WaitFor(false)))
    case EvaluatedStopped => Go(s, Dispatching(f.task, origin, Halt))
    case EvaluatedAttention => Go(s, Dispatching(f.task, origin, Attention))
    case Ready(_, _) =>
      if f.task.sub !in s.db.subs || !s.db.subs[f.task.sub].config.Valid() then Raise(s, f.task, origin)
      else if LimitsMissing(s.db.subs[f.task.sub].config) then Go(s, Dispatching(f.task, origin, Attention))
      else
        var r := PlanFor(s, f.task, f.now, f.version, e, s.db.subs[f.task.sub].config);
        var (d, outcome) := Plan(s.db, r);
        To(s, d, AfterPlan(d, outcome, r, f.task, origin))
  }

  /** What the processor does with the outcome of a plan. */
  function AfterPlan(d: Db, outcome: PlanOutcome, r: PlanRequest, task: Task, origin: Origin): Flight {
    match outcome
    case Raised => Dispatching(task, origin, WaitFor(false))
    case BudgetFull => Dispatching(task, origin, WaitFor(true))
    case SeatUnavailable => Dispatching(task, origin, WaitFor(false))
    case LimitReached => Dispatching(task, origin, Halt)
    case AlreadyActive => Dispatching(task, origin, Release)
    case NotFound => Dispatching(task, origin, Release)
    case Planned(no) =>
      var k := Key(task.cand, no);
      if k.cand !in d.cands then Idle
      else
        var q := FirstRequest(k, d.cands[k.cand].session, r);
        if q.Valid() then Working(Job(k, q, task, origin, BeforeWrite, r.now)) else Dispatching(task, origin, WaitFor(false))
  }

  /** The request first submitted is made from what was planned, not read back from the tables. */
  function FirstRequest(k: Key, session: SessionId, r: PlanRequest): Request {
    Request(k, session, r.seats, r.Quoted(), r.reserved, r.config.holdTtl, r.config.PriceUnlimited())
  }

  /** A shared order is never planned without its price limits. */
  predicate LimitsMissing(g: Config) { !g.individual && (g.maxTicketPrice.None? || g.maxOrderTotal.None?) }

  /** A resumed checkout is recorded at the time its run began. */
  function RecordedAt(s: Sys, job: Job): Time { if job.origin.FromResume? then job.now else s.clock }

  function AfterRefusal(job: Job, verdict: Verdict): Flight {
    Dispatching(job.task, job.origin, if job.origin.FromRenewal? then verdict else Nothing)
  }

  ghost function Work(s: Sys, job: Job, newMsg: MsgId): Sys {
    var k := job.key;
    match job.phase
    case BeforeWrite =>
      if !s.live then Go(s, Working(job.(phase := Settling(Refused(DryRun, ContractChanged)))))
      else To(s, RecordStage(s.db, k, WriteStarted, s.clock), Working(job.(phase := WriteRecorded))).(log := s.log + [Opened(k)])
    case WriteRecorded => Go(s, Working(job.(phase := AtProvider))).(log := s.log + [Wrote(k)])
    case AtProvider => s
    case Judged(stage, result) => To(s, RecordStage(s.db, k, stage, s.clock), Working(job.(phase := Settling(result))))
    case Settling(result) =>
      match result
      case Accepted(o) =>
        if newMsg in s.db.msgs then s
        else
          var (e, outcome) := RecordOrder(s.db, k, o, RecordedAt(s, job), newMsg);
          if outcome.Recorded? then To(s, e, Dispatching(job.task, job.origin, Hold(k.no, o.heldAt)))
          else Raise(s, job.task, job.origin)
      case Refused(state, error) =>
        if state.CheckoutRejected? then
          var stop := job.task.maxCycles.Some? && k.no >= job.task.maxCycles.value;
          To(s, RejectIntent(s.db, k, job.now, job.task.retry, stop), AfterRefusal(job, Release))
        else To(s, IntentNeedsAttention(s.db, k, error), AfterRefusal(job, Attention))
  }

  function JudgeAnswer(paymentHost: string, job: Job, a: Answer): (Stage, CheckoutResult) {
    match a
    case Observed(o) => Judge(job.request, o, paymentHost)
    case TimedOut => (StageAmbiguous, Ambiguous(TransportTimeout))
    case TransportFails => (StageAmbiguous, Ambiguous(ContractChanged))
  }

  ghost function Step(s: Sys, e: Event): Sys {
    match e
    case Tick(t) => if t > s.clock then s.(clock := t) else s
    case Crash => Go(s, Down)
    case Interrupt => if s.flight.Down? then s else if Booted(s.flight) then Go(s, Idle) else Go(s, Down)
    case ProcessorRaises =>
      if s.flight.Evaluating? then
        Go(s, Dispatching(s.flight.task, FromRenewal(s.flight.rest, s.flight.runNow), WaitFor(false)))
      else if s.flight.Working? then Raise(s, s.flight.job.task, s.flight.job.origin)
      else s
    case Boot(keys) =>
      if s.flight.Down? && Lists(keys, UnscheduledKeys(s.db)) then Go(s, Rescheduling(keys)) else s
    case ListIncomplete(rows) =>
      if s.flight == Rescheduling([]) && ListsIncomplete(s.db, rows) then Go(s, Reconciling(rows)) else s
    case Looked(lookup) =>
      if s.flight.Reconciling? && s.flight.rows != [] then Reconcile(s, s.flight.rows, lookup) else s
    case StartRun(queue) =>
      if s.flight.Idle? && ListsResumable(s.db, queue, s.clock) && (!s.live ==> queue == [])
      then Go(s, Resuming(queue, s.clock)).(mark := s.clock) else s
    case ClaimDue(chosen, tasks) =>
      if s.flight.Claiming? then ClaimRun(s, s.flight.runNow, chosen, tasks) else s
    case LoadContext =>
      if s.flight.Renewing? && s.flight.tasks != [] then
        var t := s.flight.tasks[0];
        if t.sub in s.db.subs
        then Go(s, Evaluating(t, s.flight.tasks[1..], s.flight.runNow, s.clock, s.db.subs[t.sub].version)).(mark := s.clock)
        else Go(s, Dispatching(t, FromRenewal(s.flight.tasks[1..], s.flight.runNow), Halt))
      else s
    case Evaluated(v) => if s.flight.Evaluating? then Evaluate(s, v) else s
    case Answered(a) =>
      if s.flight.Working? && s.flight.job.phase.AtProvider? then
        var (stage, result) := JudgeAnswer(s.paymentHost, s.flight.job, a);
        Go(s, Working(s.flight.job.(phase := Judged(stage, result))))
      else s
    case Proceed(newMsg) => Advance(s, newMsg)
    case Outside(x) => s.(db := Act(s.db, x))
    case Outbox(x) => s.(db := Deliver(s.db, x))
  }

  /** The next resumable intent is loaded again with a task rebuilt from the tables; what cannot be loaded ends the run. */
  function Resume(s: Sys, queue: seq<Key>, runNow: Time): Sys {
    if queue == [] then Go(s, Claiming(runNow))
    else
      var k := queue[0];
      if k in s.db.intents && HasTask(s.db, k) && LoadRequest(s.db, k).Valid()
      then Go(s, Working(Job(k, LoadRequest(s.db, k), TaskOf(s.db, k), FromResume(queue[1..], runNow), BeforeWrite, runNow)))
      else Go(s, Idle)
  }

  predicate Booted(f: Flight) {
    !f.Down? && !f.Rescheduling? && !f.Reconciling? && !f.Finalizing? && !f.FinalScheduling?
  }

  ghost function Advance(s: Sys, newMsg: MsgId): Sys {
    match s.flight
    case Rescheduling(keys) =>
      if keys == [] || keys[0] !in s.db.orders then s
      else Reschedule(s, keys[0], s.db.orders[keys[0]].heldAt, Rescheduling(keys[1..]))
    case Reconciling(rows) => if rows == [] then To(s, RecoverClaims(s.db), Idle) else s
    case Finalizing(k, o, rows) =>
      if newMsg in s.db.msgs then s else Finalize(s, k, o, rows, newMsg)
    case FinalScheduling(k, heldAt, rows) => Reschedule(s, k, heldAt, Reconciling(rows))
    case Resuming(queue, runNow) => Resume(s, queue, runNow)
    case Renewing(tasks, _) => if tasks == [] then Go(s, Idle) else s
    case Working(job) => Work(s, job, newMsg)
    case Dispatching(task, origin, verdict) => Dispatch(s, task, origin, verdict)
    case _ => s
  }

  ghost function Run(s: Sys, events: seq<Event>): Sys {
    if events == [] then s else Step(Run(s, events[..|events| - 1]), events[|events| - 1])
  }
}
