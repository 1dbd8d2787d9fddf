/** The loops of the booking worker, run over the store; each is a run of the transition system. */
module BookingWorker {
  import opened Wrappers
  import opened Rows
  import opened Planning
  import opened Scheduling
  import opened Checkout
  import opened Environment
  import opened Mailbox
  import opened Engine
  import opened Invariants
  import opened Preservation
  import opened EngineInv
  import opened EngineProof
  import opened EngineSteps
  import opened EnginePlan
  import opened EngineWork
  import opened EngineRuns
  import opened Guarantees
  import opened Repairs
  import opened BookingStore
  import opened Admission
  import opened Acceptance
  import opened Verdicts
  import opened Settlements
  import opened Recoveries

  /** What the outside answers while one task is processed. */
  datatype Attempt = Attempt(now: Time, evaluation: Evaluation, answer: Answer)

  class Worker {
    const live: bool
    const paymentHost: string
    const store: Store
    var clock: Time
    ghost var mark: Time
    ghost var log: seq<LogEntry>

    constructor (live: bool, paymentHost: string, store: Store)
      ensures this.store == store
      ensures store.View() == NoDb ==> At(Down) == Start(live, paymentHost)
    {
      this.live, this.paymentHost, this.store := live, paymentHost, store;
      clock, mark, log := 0, 0, [];
    }

    /** The state of the transition system this worker is in when it stands at `f`. */
    ghost function At(f: Flight): Sys
      reads this, store
    {
      Sys(live, paymentHost, store.View(), f, log, clock, mark)
    }

    /** uuid4 stands for any identifier that is not in use. */
    method FreshMessage() returns (m: MsgId)
      ensures m !in store.msgs
    {
      m := 0;
      var todo := store.msgs.Keys;
      while todo != {}
        invariant todo <= store.msgs.Keys && forall n :: n in store.msgs && n !in todo ==> n < m
        decreases todo
      {
        NotEmpty(todo);
        var n :| n in todo;
        if n >= m { m := n + 1; }
        todo := todo - {n};
      }
    }

    /** At most one changing call, with its start committed before and its judged outcome after it. */
    method Submit(job: Job, answer: Answer) returns (result: CheckoutResult, ghost trace: seq<Event>)
      requires Reachable(At(Working(job))) && job.phase.BeforeWrite?
      modifies store, this`log
      ensures Run(old(At(Working(job))), trace) == At(Working(job.(phase := Settling(result))))
      ensures Reachable(At(Working(job.(phase := Settling(result)))))
      ensures live ==> Concludes(job.request, paymentHost, answer, result)
      ensures live ==> job.key in store.intents && LeftIn(result, store.intents[job.key].state)
      ensures !live ==> result == Refused(DryRun, ContractChanged) && store.View() == old(store.View())
    {
      hide Step, Run, JudgeAnswer, Concludes, LeftIn, RecordStage, Linked, Addressed;
      ghost var s := At(Working(job));
      ReachableStore(s);
      if !live {
        result := Refused(DryRun, ContractChanged);
        trace := [Proceed(0)];
        DryRunRun(s, job);
      } else {
        store.RecordMilestone(job.key, WriteStarted, clock);
        log := log + [Opened(job.key)];
        log := log + [Wrote(job.key)];
        var judged := JudgeAnswer(paymentHost, job, answer);
        result := judged.1;
        store.RecordMilestone(job.key, judged.0, clock);
        trace := [Proceed(0), Proceed(0), Answered(answer), Proceed(0)];
        SubmitRun(s, job, answer);
        SubmitConcludes(s, job, answer);
      }
      StillReachable(s, trace);
    }

    /** A judged success is recorded as an order; it is never turned away. */
    method SettleAccepted(job: Job, o: Order) returns (next: Flight, ghost trace: seq<Event>)
      requires Reachable(At(Working(job))) && job.phase == Settling(Accepted(o))
      modifies store
      ensures Run(old(At(Working(job))), trace) == At(next)
      ensures next == Dispatching(job.task, job.origin, Hold(job.key.no, o.heldAt))
    {
      hide Step, Run;
      ghost var s := At(Working(job));
      ReachableStore(s);
      var newMsg := FreshMessage();
      AcceptedRun(s, job, o, newMsg);
      var outcome := store.RecordConfirmedOrder(job.key, o, if job.origin.FromResume? then job.now else clock, newMsg);
      next := Dispatching(job.task, job.origin, Hold(job.key.no, o.heldAt));
      trace := [Proceed(newMsg)];
    }

    method SettleRefused(job: Job, state: CheckoutState, error: ErrorCode) returns (next: Flight, ghost trace: seq<Event>)
      requires Reachable(At(Working(job))) && job.phase == Settling(Refused(state, error))
      modifies store
      ensures Run(old(At(Working(job))), trace) == At(next)
      ensures next.Dispatching? && next.task == job.task && next.origin == job.origin
    {
      hide Step, Run;
      ghost var s := At(Working(job));
      ReachableStore(s);
      if state.CheckoutRejected? {
        store.RejectCheckout(job.key, job.now, job.task.retry, job.task.maxCycles.Some? && job.key.no >= job.task.maxCycles.value);
        next := AfterRefusal(job, Release);
      } else {
        store.CheckoutNeedsAttention(job.key, error);
        next := AfterRefusal(job, Attention);
      }
      trace := [Proceed(0)];
      RunOne(s, Proceed(0));
      RefusedRun(s, job, state, error);
    }

    /** What the loop does with the result of a checkout. */
    method Settle(job: Job) returns (next: Flight, ghost trace: seq<Event>)
      requires Reachable(At(Working(job))) && job.phase.Settling?
      modifies store
      ensures Run(old(At(Working(job))), trace) == At(next) && Reachable(At(next))
      ensures next.Dispatching? && next.task == job.task && next.origin == job.origin
    {
      hide *;
      ghost var s := At(Working(job));
      match job.phase.result {
        case Accepted(o) => next, trace := SettleAccepted(job, o);
        case Refused(state, error) => next, trace := SettleRefused(job, state, error);
      }
      StillReachable(s, trace);
    }

    /** The scheduler transaction for a task's outcome; it is never turned away. */
    method DispatchVerdict(t: Task, origin: Origin, v: Verdict) returns (ghost trace: seq<Event>)
      requires Reachable(At(Dispatching(t, origin, v)))
      modifies store
      ensures Run(old(At(Dispatching(t, origin, v))), trace) == At(Next(origin)) && Reachable(At(Next(origin)))
    {
      hide Step, Run, ScheduleAfterHold, ScheduleWait, MarkNeedsAttention, ReleaseClaim, Linked, Addressed;
      ghost var s := At(Dispatching(t, origin, v));
      ReachableStore(s);
      NeverTurnedAway(s, t, origin, v);
      DispatchRun(s, t, origin, v);
      match v {
        case Hold(no, heldAt) => var outcome := store.ScheduleHold(t, no, heldAt);
        case WaitFor(budget) => store.Wait(t, budget, origin.runNow);
        case Attention => store.BlockTask(t);
        case Halt => store.Stop(t.cand);
        case Release => store.Release(t);
        case Nothing =>
      }
      trace := [Proceed(0)];
      StillReachable(s, trace);
    }

    /** One evaluation, and the plan it leads to. */
    method EvaluateTask(t: Task, rest: seq<Task>, runNow: Time, now: Time, version: nat, e: Evaluation)
      returns (next: Flight, ghost trace: seq<Event>)
      requires Reachable(At(Evaluating(t, rest, runNow, now, version)))
      modifies store
      ensures Run(old(At(Evaluating(t, rest, runNow, now, version))), trace) == At(next) && Reachable(At(next))
      ensures GoesOn(next, FromRenewal(rest, runNow), t)
      ensures t.cand in old(store.cands) && old(store.cands)[t.cand].sub in old(store.subs)
      ensures Decides(old(store.View()), store.View(), t, Settings(old(store.View()), t.cand), FromRenewal(rest, runNow), now, version, e, next)
    {
      hide Step, Run;
      ghost var s := At(Evaluating(t, rest, runNow, now, version));
      var origin := FromRenewal(rest, runNow);
      EvaluatingKnows(s);
      var g := store.subs[t.sub].config;
      match e {
        case EvaluationRaises => next := Dispatching(t, origin, WaitFor(false));
        case EvaluatedPaused => next := Dispatching(t, origin, Release);
        case EvaluatedWaiting => next := Dispatching(t, origin, WaitFor(false));
        case EvaluatedStopped => next := Dispatching(t, origin, Halt);
        case EvaluatedAttention => next := Dispatching(t, origin, Attention);
        case Ready(seats, total) =>
          if LimitsMissing(g) {
            next := Dispatching(t, origin, Attention);
          } else {
            var reserved := if g.maxOrderTotal.Some? then g.maxOrderTotal.value else total;
            var r := PlanRequest(t.cand, t.sub, g, reserved, Some(total), seats, now, Some(version));
            var outcome := store.PlanCycle(r);
            next := AfterPlan(store.View(), outcome, r, t, origin);
            PlanGoesOn(s.db, r, t, origin);
          }
      }
      trace := [Evaluated(e)];
      EvaluationIsDecided(s, e);
      RunOne(s, Evaluated(e));
      EvaluateRun(s, e);
      StillReachable(s, trace);
    }

    /** One claimed task, from its context to the transaction its outcome calls for. */
    method ProcessTask(tasks: seq<Task>, runNow: Time, attempt: Attempt) returns (ghost trace: seq<Event>)
      requires tasks != [] && Reachable(At(Renewing(tasks, runNow)))
      modifies this, store
      ensures Run(old(At(Renewing(tasks, runNow))), trace) == At(Renewing(tasks[1..], runNow))
      ensures Reachable(At(Renewing(tasks[1..], runNow)))
    {
      hide Step, Run, Reachable, Decides, Concludes, LeftIn;
      ghost var s := At(Renewing(tasks, runNow));
      var t, rest := tasks[0], tasks[1..];
      var now := ReadClock(attempt.now);
      trace := [Tick(attempt.now)];
      TickRun(s, attempt.now);
      StillReachable(s, trace);
      ghost var ticked := At(Renewing(tasks, runNow));
      LoadStep(ticked, tasks, runNow);
      var version := store.subs[t.sub].version;
      mark := clock;
      RunOne(ticked, LoadContext);
      StillReachable(ticked, [LoadContext]);
      RunAppend(s, trace, [LoadContext]);
      trace := trace + [LoadContext];
      var next, more := EvaluateTask(t, rest, runNow, now, version, attempt.evaluation);
      RunAppend(s, trace, more);
      trace := trace + more;
      if next.Working? {
        var result, sent := Submit(next.job, attempt.answer);
        RunAppend(s, trace, sent);
        trace := trace + sent;
        next, more := Settle(next.job.(phase := Settling(result)));
        RunAppend(s, trace, more);
        trace := trace + more;
      }
      more := DispatchVerdict(next.task, next.origin, next.verdict);
      RunAppend(s, trace, more);
      trace := trace + more;
    }

    method ReadClock(now: Time) returns (t: Time)
      modifies this`clock
      ensures clock == (if now > old(clock) then now else old(clock)) && t == clock
    {
      if now > clock { clock := now; }
      t := clock;
    }

    /** The renewal loop processes every claimed task once; a task that fails does not keep the next from running. */
    method ProcessTasks(tasks: seq<Task>, runNow: Time, attempts: seq<Attempt>) returns (ghost trace: seq<Event>)
      requires |attempts| == |tasks| && Reachable(At(Renewing(tasks, runNow)))
      modifies this, store
      ensures Run(old(At(Renewing(tasks, runNow))), trace) == At(Renewing([], runNow)) && Reachable(At(Renewing([], runNow)))
    {
      hide Step;
      ghost var s := At(Renewing(tasks, runNow));
      trace := [];
      var i := 0;
      assert tasks[i..] == tasks;
      while i < |tasks|
        invariant 0 <= i <= |tasks| && Reachable(At(Renewing(tasks[i..], runNow)))
        invariant Run(s, trace) == At(Renewing(tasks[i..], runNow))
      {
        assert tasks[i..][1..] == tasks[i + 1..];
        var more := ProcessTask(tasks[i..], runNow, attempts[i]);
        RunAppend(s, trace, more);
        trace := trace + more;
        i := i + 1;
      }
      assert tasks[i..] == [];
    }

    // ----- resumed checkouts

    /** One resumed checkout; a request that cannot be built any more ends the run. */
    method ResumeOne(queue: seq<Key>, runNow: Time, answer: Answer) returns (ok: bool, ghost trace: seq<Event>)
      requires queue != [] && Reachable(At(Resuming(queue, runNow)))
      modifies store, this`log
      ensures Run(old(At(Resuming(queue, runNow))), trace) == At(if ok then Resuming(queue[1..], runNow) else Idle)
      ensures Reachable(At(if ok then Resuming(queue[1..], runNow) else Idle))
      ensures ok <==> queue[0] in old(store.intents) && old(store.intents)[queue[0]].expected.minor > 0
    {
      hide Work, Reconcile, Dispatch, Finalize, Reschedule, Evaluate, ClaimRun, JudgeAnswer;
      ghost var s := At(Resuming(queue, runNow));
      ResumingKnows(s, queue, runNow);
      var k, origin := queue[0], FromResume(queue[1..], runNow);
      var job := Job(k, LoadRequest(store.View(), k), TaskOf(store.View(), k), origin, BeforeWrite, runNow);
      trace := [Proceed(0)];
      RunOne(s, Proceed(0));
      ResumeStep(s, queue, runNow);
      StillReachable(s, trace);
      ok := job.request.Valid();
      if !ok { return; }
      var result, more := Submit(job, answer);
      RunAppend(s, trace, more);
      trace := trace + more;
      var next, settled := Settle(job.(phase := Settling(result)));
      RunAppend(s, trace, settled);
      trace := trace + settled;
      more := DispatchVerdict(next.task, next.origin, next.verdict);
      RunAppend(s, trace, more);
      trace := trace + more;
    }

    /** The checkouts of the queue one after the other, up to the first that cannot be loaded. */
    method ResumeAll(queue: seq<Key>, runNow: Time, answers: seq<Answer>) returns (ok: bool, ghost trace: seq<Event>)
      requires |answers| >= |queue| && Reachable(At(Resuming(queue, runNow)))
      modifies store, this`log
      ensures Run(old(At(Resuming(queue, runNow))), trace) == At(if ok then Resuming([], runNow) else Idle)
      ensures Reachable(At(if ok then Resuming([], runNow) else Idle))
    {
      hide Step;
      ghost var s := At(Resuming(queue, runNow));
      trace, ok := [], true;
      var i := 0;
      assert queue[i..] == queue;
      while i < |queue| && ok
        invariant 0 <= i <= |queue| && Reachable(At(if ok then Resuming(queue[i..], runNow) else Idle))
        invariant Run(s, trace) == At(if ok then Resuming(queue[i..], runNow) else Idle)
      {
        assert queue[i..][1..] == queue[i + 1..];
        ghost var more: seq<Event>;
        ok, more := ResumeOne(queue[i..], runNow, answers[i]);
        RunAppend(s, trace, more);
        trace := trace + more;
        i := i + 1;
      }
      assert ok ==> queue[i..] == [];
    }

    // ----- one pass

    method ClaimBatch(runNow: Time, limit: nat) returns (tasks: seq<Task>, ghost trace: seq<Event>)
      requires limit > 0 && Reachable(At(Claiming(runNow)))
      modifies store
      ensures Run(old(At(Claiming(runNow))), trace) == At(Renewing(tasks, runNow)) && Reachable(At(Renewing(tasks, runNow)))
      ensures |tasks| <= limit
    {
      hide Plan, WithCycle, Claimable;
      ghost var s := At(Claiming(runNow));
      ghost var chosen: set<CandId>;
      tasks, chosen := store.ClaimDueCandidates(runNow, limit);
      trace := [ClaimDue(chosen, tasks)];
      RunOne(s, ClaimDue(chosen, tasks));
      StillReachable(s, trace);
    }

    method StartResuming(limit: nat) returns (queue: seq<Key>, ghost trace: seq<Event>)
      requires limit > 0 && Reachable(At(Idle))
      modifies this`mark
      ensures mark == clock && |queue| <= limit
      ensures Run(old(At(Idle)), trace) == At(Resuming(queue, clock)) && Reachable(At(Resuming(queue, clock)))
    {
      hide Advance, Evaluate, Reconcile, ClaimRun, JudgeAnswer;
      ghost var s := At(Idle);
      queue := [];
      if live { queue := store.ListResumableCheckouts(limit, clock); }
      mark := clock;
      trace := [StartRun(queue)];
      RunOne(s, StartRun(queue));
      StillReachable(s, trace);
    }

    method ResumeDue(limit: nat, answers: seq<Answer>) returns (ok: bool, ghost trace: seq<Event>)
      requires limit > 0 && |answers| >= limit && Reachable(At(Idle))
      modifies this, store
      ensures clock == old(clock)
      ensures Run(old(At(Idle)), trace) == At(if ok then Claiming(clock) else Idle)
      ensures Reachable(At(if ok then Claiming(clock) else Idle))
    {
      hide Step, Run;
      ghost var s := At(Idle);
      var queue, first := StartResuming(limit);
      ghost var more: seq<Event>;
      ok, more := ResumeAll(queue, clock, answers);
      RunAppend(s, first, more);
      if !ok { return ok, first + more; }
      ResumingEnds(At(Resuming([], clock)), clock);
      StillReachable(At(Resuming([], clock)), [Proceed(0)]);
      RunAppend(s, first + more, [Proceed(0)]);
      trace := first + more + [Proceed(0)];
    }

    method RenewDue(runNow: Time, limit: nat, attempts: seq<Attempt>) returns (processed: nat, ghost trace: seq<Event>)
      requires limit > 0 && |attempts| >= limit && Reachable(At(Claiming(runNow)))
      modifies this, store
      ensures Run(old(At(Claiming(runNow))), trace) == At(Idle) && Reachable(At(Idle))
      ensures processed <= limit
    {
      hide Step, Run;
      ghost var s := At(Claiming(runNow));
      var tasks, first := ClaimBatch(runNow, limit);
      processed := |tasks|;
      var more := ProcessTasks(tasks, runNow, attempts[..|tasks|]);
      RunAppend(s, first, more);
      RenewingEnds(At(Renewing([], runNow)), runNow);
      StillReachable(At(Renewing([], runNow)), [Proceed(0)]);
      RunAppend(s, first + more, [Proceed(0)]);
      trace := first + more + [Proceed(0)];
    }

    /**
     One pass of the booking loop: resumable checkouts first, then the due candidates, one after the other. A checkout
     that cannot be loaded cuts it short.
     */
    method RunBookingDue(limit: nat, answers: seq<Answer>, attempts: seq<Attempt>)
      returns (processed: Option<nat>, ghost trace: seq<Event>)
      requires limit > 0 && |answers| >= limit && |attempts| >= limit && Reachable(At(Idle))
      modifies this, store
      ensures Run(old(At(Idle)), trace) == At(Idle) && Reachable(At(Idle))
      ensures processed.Some? ==> processed.value <= limit
    {
      hide *;
      ghost var s := At(Idle);
      var runNow := clock;
      var ok, first := ResumeDue(limit, answers);
      if !ok { return None, first; }
      var count, more := RenewDue(runNow, limit, attempts);
      RunAppend(s, first, more);
      processed, trace := Some(count), first + more;
    }

    // ----- startup

    /** The decision about one interrupted checkout, its transaction, and the record of an order that was found. */
    method RecoverOne(rows: seq<Engine.Incomplete>, lookup: Lookup) returns (ghost trace: seq<Event>)
      requires rows != [] && Reachable(At(Reconciling(rows)))
      modifies store, this`log
      ensures Run(old(At(Reconciling(rows))), trace) == At(Reconciling(rows[1..]))
      ensures Reachable(At(Reconciling(rows[1..])))
      ensures Recovered(old(store.View()), store.View(), rows[0].key, paymentHost, lookup, clock)
    {
      hide Step, Run, Reconcile, ApplyRecovery, Linked, Addressed, Recovers, Recovered, IsThere, IsOrderOf, Buys, TurnsTo, Decide;
      ghost var s := At(Reconciling(rows));
      ghost var db := store.View();
      DecisionLeaves(s, rows, lookup);
      ReachableStore(s);
      ReachableRecovers(s, rows);
      var k := rows[0].key;
      var d := Decide(store.View(), paymentHost, k, rows[0].started, lookup);
      if d.AllowRetry? && store.intents[k].writeStartedAt.Some? { log := log + [Authorised(k)]; }
      store.ApplyOutcome(k, d);
      trace := [Looked(lookup)];
      LookedRun(s, rows, lookup);
      RunOne(s, Looked(lookup));
      ReconcileShape(s, rows, lookup);
      StillReachable(s, trace);
      ghost var mid := store.View();
      FoundIsMoved(db, mid, k, paymentHost, lookup);
      if d.ConfirmFound? {
        var more := FinalizeOne(k, d.order, rows[1..]);
        FoundIsRecovered(db, mid, store.View(), k, paymentHost, lookup, d.order, Settings(db, k.cand), clock);
        RunAppend(s, trace, more);
        trace := trace + more;
      } else {
        DecidedIsRecovered(db, mid, k, paymentHost, lookup, clock);
      }
    }

    method FinalizeOne(k: Key, o: Order, rows: seq<Engine.Incomplete>) returns (ghost trace: seq<Event>)
      requires Reachable(At(Finalizing(k, o, rows)))
      modifies store
      ensures Run(old(At(Finalizing(k, o, rows))), trace) == At(Reconciling(rows)) && Reachable(At(Reconciling(rows)))
      ensures k.cand in old(store.cands) && old(store.cands)[k.cand].sub in old(store.subs)
      ensures exists m :: Buys(old(store.View()), store.View(), k, o, Settings(old(store.View()), k.cand), clock, m)
    {
      hide Step, Run, Buys;
      ghost var s := At(Finalizing(k, o, rows));
      ReachableStore(s);
      var newMsg := FreshMessage();
      FoundEnds(s, newMsg, 0);
      FinalizeRun(s, k, o, rows, newMsg);
      var outcome := store.RecordConfirmedOrder(k, o, clock, newMsg);
      StillReachable(s, [Proceed(newMsg)]);
      ghost var recorded := At(FinalScheduling(k, o.heldAt, rows));
      FinalScheduleRun(recorded, k, o.heldAt, rows);
      ReachableStore(recorded);
      var scheduled := store.ScheduleHold(TaskOf(store.View(), k), k.no, o.heldAt);
      StillReachable(recorded, [Proceed(0)]);
      RunAppend(s, [Proceed(newMsg)], [Proceed(0)]);
      RunTwo(s, Proceed(newMsg), Proceed(0));
      assert [Proceed(newMsg)] + [Proceed(0)] == [Proceed(newMsg), Proceed(0)];
      trace := [Proceed(newMsg)] + [Proceed(0)];
    }

    /** Recovery handles every unfinished checkout once, and never writes to the provider. */
    method RecoverStartup(lookups: seq<Lookup>) returns (ghost trace: seq<Event>)
      requires Reachable(At(Down)) && |lookups| >= |store.intents|
      modifies this, store
      ensures Run(old(At(Down)), trace) == At(Idle) && Reachable(At(Idle))
    {
      hide *;
      ghost var s := At(Down);
      trace := RepairAtStartup();
      var more := RecoverAll(lookups);
      RunAppend(s, trace, more);
      trace := trace + more;
    }

    method RepairAtStartup() returns (ghost trace: seq<Event>)
      requires Reachable(At(Down))
      modifies store
      ensures Run(old(At(Down)), trace) == At(Rescheduling([])) && Reachable(At(Rescheduling([])))
      ensures |store.intents| == old(|store.intents|)
    {
      hide Step, Run;
      ghost var s := At(Down);
      ReachableStore(s);
      ReachableTables(s);
      UnscheduledIsRepairable(s.db);
      var keys := store.List(UnscheduledKeys(store.View()), (a, b) => true);
      var count := store.RecoverUnscheduled();
      StartupRepairs(s, keys);
      trace := [Boot(keys)] + Proceeds(|keys|);
      StillReachable(s, trace);
    }

    method RecoverAll(lookups: seq<Lookup>) returns (ghost trace: seq<Event>)
      requires Reachable(At(Rescheduling([]))) && |lookups| >= |store.intents|
      modifies this, store
      ensures Run(old(At(Rescheduling([]))), trace) == At(Idle) && Reachable(At(Idle))
    {
      hide Advance, Evaluate, Reconcile, ClaimRun, JudgeAnswer;
      ghost var s := At(Rescheduling([]));
      var rows := store.ListUnfinished();
      FewRows(store.View(), rows);
      trace := [ListIncomplete(rows)];
      RunOne(s, ListIncomplete(rows));
      StillReachable(s, trace);
      var more := RecoverRows(rows, lookups);
      RunAppend(s, trace, more);
      trace := trace + more;
      ghost var done := At(Reconciling([]));
      store.RecoverRenewals();
      RecoveryEnds(done);
      StillReachable(done, [Proceed(0)]);
      RunAppend(s, trace, [Proceed(0)]);
      trace := trace + [Proceed(0)];
    }

    /** The recovery loop, row by row. */
    method RecoverRows(rows: seq<Engine.Incomplete>, lookups: seq<Lookup>) returns (ghost trace: seq<Event>)
      requires Reachable(At(Reconciling(rows))) && |lookups| >= |rows|
      modifies store, this`log
      ensures Run(old(At(Reconciling(rows))), trace) == At(Reconciling([])) && Reachable(At(Reconciling([])))
    {
      hide Step;
      ghost var s := At(Reconciling(rows));
      trace := [];
      var i := 0;
      assert rows[i..] == rows;
      while i < |rows|
        invariant 0 <= i <= |rows| && Reachable(At(Reconciling(rows[i..])))
        invariant Run(s, trace) == At(Reconciling(rows[i..]))
      {
        assert rows[i..][1..] == rows[i + 1..];
        var more := RecoverOne(rows[i..], lookups[i]);
        RunAppend(s, trace, more);
        trace := trace + more;
        i := i + 1;
      }
      assert rows[i..] == [];
    }
  }

  // ----- steps

  lemma ResumingEnds(s: Sys, runNow: Time)
    requires s.flight == Resuming([], runNow)
    ensures Run(s, [Proceed(0)]) == Go(s, Claiming(runNow))
  {
    hide Work, Reconcile, Dispatch, Finalize, Reschedule, Evaluate, ClaimRun, JudgeAnswer, Act, Deliver;
  }

  lemma RenewingEnds(s: Sys, runNow: Time)
    requires s.flight == Renewing([], runNow)
    ensures Run(s, [Proceed(0)]) == Go(s, Idle)
  {
    hide Work, Reconcile, Dispatch, Finalize, Reschedule, Evaluate, ClaimRun, JudgeAnswer;
  }

  lemma RecoveryEnds(s: Sys)
    requires s.flight == Reconciling([])
    ensures Run(s, [Proceed(0)]) == To(s, RecoverClaims(s.db), Idle)
  {
    hide Work, Reconcile, Dispatch, Finalize, Reschedule, Evaluate, ClaimRun, JudgeAnswer;
    RunOne(s, Proceed(0));
  }

  lemma ReachableRecovers(s: Sys, rows: seq<Engine.Incomplete>)
    requires Reachable(s) && s.flight == Reconciling(rows) && rows != []
    ensures RowReady(s.db, rows[0])
  {
    hide Step, Run;
    ReachableHolds(s);
  }

  lemma FinalizeRun(s: Sys, k: Key, o: Order, rows: seq<Engine.Incomplete>, newMsg: MsgId)
    requires Reachable(s) && s.flight == Finalizing(k, o, rows) && newMsg !in s.db.msgs
    ensures var e := RecordOrder(s.db, k, o, s.clock, newMsg).0;
      Run(s, [Proceed(newMsg)]) == To(s, e, FinalScheduling(k, o.heldAt, rows)) && HasTask(e, k)
  {
    hide Step, Run;
    ReachableFinal(s, k, o, rows);
    ReachableTables(s);
    FinalizeReady(s.db, k, o, rows, s.clock, newMsg);
    FinalizeStep(s, k, o, rows, newMsg);
  }

  lemma FinalizeStep(s: Sys, k: Key, o: Order, rows: seq<Engine.Incomplete>, newMsg: MsgId)
    requires s.flight == Finalizing(k, o, rows) && newMsg !in s.db.msgs
    requires RecordOrder(s.db, k, o, s.clock, newMsg).1.Recorded?
    ensures Run(s, [Proceed(newMsg)])
         == To(s, RecordOrder(s.db, k, o, s.clock, newMsg).0, FinalScheduling(k, o.heldAt, rows))
  {
    hide RecordOrder, ConfirmedGraph;
    RunOne(s, Proceed(newMsg));
  }

  lemma ReachableFinal(s: Sys, k: Key, o: Order, rows: seq<Engine.Incomplete>)
    requires Reachable(s) && s.flight == Finalizing(k, o, rows)
    ensures FinalReady(s.db, k, o, rows)
  {
    hide Step, Run;
    ReachableHolds(s);
  }

  lemma FinalScheduleRun(s: Sys, k: Key, heldAt: Time, rows: seq<Engine.Incomplete>)
    requires Reachable(s) && s.flight == FinalScheduling(k, heldAt, rows)
    ensures HasTask(s.db, k)
    ensures ScheduleAfterHold(s.db, TaskOf(s.db, k), k.no, heldAt).1 == Scheduled
    ensures Run(s, [Proceed(0)]) == To(s, ScheduleAfterHold(s.db, TaskOf(s.db, k), k.no, heldAt).0, Reconciling(rows))
  {
    hide Step, Run;
    ReachableFinalRepair(s, k, heldAt, rows);
    ReachableTables(s);
    assert RowsAt(s.db, k);
    RepairIsSchedulable(s.db, k);
    ScheduleReplace(s.db, TaskOf(s.db, k), k.no, heldAt);
    FinalScheduleStep(s, k, heldAt, rows);
  }

  lemma FinalScheduleStep(s: Sys, k: Key, heldAt: Time, rows: seq<Engine.Incomplete>)
    requires s.flight == FinalScheduling(k, heldAt, rows) && HasTask(s.db, k)
    requires ScheduleAfterHold(s.db, TaskOf(s.db, k), k.no, heldAt).1 == Scheduled
    ensures Run(s, [Proceed(0)]) == To(s, ScheduleAfterHold(s.db, TaskOf(s.db, k), k.no, heldAt).0, Reconciling(rows))
  {
    hide ScheduleAfterHold, ScheduleWait, Held, Waiting, Dispatched;
    RunOne(s, Proceed(0));
  }

  lemma ReachableFinalRepair(s: Sys, k: Key, heldAt: Time, rows: seq<Engine.Incomplete>)
    requires Reachable(s) && s.flight == FinalScheduling(k, heldAt, rows)
    ensures FinalRepairReady(s.db, k, heldAt, rows)
  {
    hide Step, Run;
    ReachableHolds(s);
  }

  lemma FewRows(db: Db, rows: seq<Engine.Incomplete>)
    requires ListsIncomplete(db, rows)
    ensures |rows| <= |db.intents|
  {
    var keys := set i | 0 <= i < |rows| :: rows[i].key;
    RowsCount(rows, keys);
    Subset(keys, db.intents.Keys);
  }

  lemma {:induction false} RowsCount(rows: seq<Engine.Incomplete>, keys: set<Key>)
    requires forall i, j :: 0 <= i < j < |rows| ==> rows[i].key != rows[j].key
    requires keys == set i | 0 <= i < |rows| :: rows[i].key
    ensures |keys| == |rows|
  {
    if rows == [] {
      assert keys == {};
    } else {
      var last := rows[|rows| - 1].key;
      var init := rows[..|rows| - 1];
      RowsCount(init, set i | 0 <= i < |init| :: init[i].key);
      assert keys == (set i | 0 <= i < |init| :: init[i].key) + {last};
    }
  }

  lemma ResumeStep(s: Sys, queue: seq<Key>, runNow: Time)
    requires Reachable(s) && s.flight == Resuming(queue, runNow) && queue != []
    ensures queue[0] in s.db.intents && HasTask(s.db, queue[0])
    ensures var k := queue[0]; var q := LoadRequest(s.db, k); var origin := FromResume(queue[1..], runNow);
      && (q.Valid() <==> s.db.intents[k].expected.minor > 0)
      && Step(s, Proceed(0)) == Go(s, if q.Valid() then Working(Job(k, q, TaskOf(s.db, k), origin, BeforeWrite, runNow)) else Idle)
  {
    hide Reachable, Work, Reconcile, Dispatch, Finalize, Reschedule, Evaluate, ClaimRun, JudgeAnswer, Run;
    ResumingKnows(s, queue, runNow);
    RequestIsConstructible(s, queue[0]);
  }

  lemma ResumingKnows(s: Sys, queue: seq<Key>, runNow: Time)
    requires Reachable(s) && s.flight == Resuming(queue, runNow) && queue != []
    ensures queue[0] in s.db.intents && HasTask(s.db, queue[0])
  {
    hide Step, Run;
    ReachableHolds(s);
    assert ResumeReady(s.db, queue[0]);
  }

  /** The task is either on its way to the provider or about to be dispatched. */
  predicate GoesOn(f: Flight, origin: Origin, t: Task) {
    || (f.Dispatching? && f.task == t && f.origin == origin)
    || (f.Working? && f.job.task == t && f.job.origin == origin && f.job.phase.BeforeWrite?)
  }

  lemma EvaluatingKnows(s: Sys)
    requires Reachable(s) && s.flight.Evaluating?
    ensures s.flight.task.sub in s.db.subs && s.db.subs[s.flight.task.sub].config.Valid() && s.flight.task.cand in s.db.cands
  {
    hide Step, Run;
    ReachableTask(s);
    ReachableTables(s);
  }

  lemma LoadStep(s: Sys, tasks: seq<Task>, runNow: Time)
    requires Reachable(s) && s.flight == Renewing(tasks, runNow) && tasks != []
    ensures tasks[0].sub in s.db.subs && Step(s, LoadContext)
      == Go(s, Evaluating(tasks[0], tasks[1..], runNow, s.clock, s.db.subs[tasks[0].sub].version)).(mark := s.clock)
  {
    hide Work, Reconcile, Dispatch, Finalize, Reschedule, Evaluate, ClaimRun, JudgeAnswer, Reachable;
    RenewingKnows(s, tasks, runNow);
  }

  lemma RenewingKnows(s: Sys, tasks: seq<Task>, runNow: Time)
    requires Reachable(s) && s.flight == Renewing(tasks, runNow) && tasks != []
    ensures tasks[0].sub in s.db.subs
  {
    hide Step, Run;
    ReachableHolds(s);
    assert TaskReady(s.db, tasks[0]);
  }

  lemma PlanGoesOn(db: Db, r: PlanRequest, t: Task, origin: Origin)
    requires r.config.Valid() && r.cand == t.cand
    ensures var (d, outcome) := Plan(db, r); GoesOn(AfterPlan(d, outcome, r, t, origin), origin, t)
  {}

  lemma EvaluationIsDecided(s: Sys, v: Evaluation)
    requires Reachable(s) && s.flight.Evaluating?
    ensures s.flight.task.cand in s.db.cands && s.db.cands[s.flight.task.cand].sub in s.db.subs
    ensures var f := s.flight; var u := Step(s, Evaluated(v));
      Decides(s.db, u.db, f.task, Settings(s.db, f.task.cand), FromRenewal(f.rest, f.runNow), f.now, f.version, v, u.flight)
  {
    hide Reachable, Run, Step, Evaluate, Tables, Decides;
    ReachableTask(s);
    ReachableTables(s);
    EvaluationDecides(s, v);
    EvaluatedSteps(s, v, 0);
  }

  lemma EvaluateRun(s: Sys, e: Evaluation)
    requires s.flight.Evaluating? && s.flight.task.sub in s.db.subs && s.db.subs[s.flight.task.sub].config.Valid()
    ensures var f := s.flight; var origin := FromRenewal(f.rest, f.runNow); var g := s.db.subs[f.task.sub].config;
      Step(s, Evaluated(e)) ==
      match e
      case EvaluationRaises => Go(s, Dispatching(f.task, origin, WaitFor(false)))
      case EvaluatedPaused => Go(s, Dispatching(f.task, origin, Release))
      case EvaluatedWaiting => Go(s, Dispatching(f.task, origin, WaitFor(false)))
      case EvaluatedStopped => Go(s, Dispatching(f.task, origin, Halt))
      case EvaluatedAttention => Go(s, Dispatching(f.task, origin, Attention))
      case Ready(_, _) =>
        if LimitsMissing(g) then Go(s, Dispatching(f.task, origin, Attention))
        else
          var r := PlanFor(s, f.task, f.now, f.version, e, g);
          To(s, Plan(s.db, r).0, AfterPlan(Plan(s.db, r).0, Plan(s.db, r).1, r, f.task, origin))
  {}

  lemma TickRun(s: Sys, t: Time)
    ensures Run(s, [Tick(t)]) == s.(clock := if t > s.clock then t else s.clock)
  {
    hide Advance, Evaluate, Reconcile, ClaimRun, JudgeAnswer;
  }

  lemma ReachableStore(s: Sys)
    requires Reachable(s)
    ensures Linked(s.db) && Addressed(s.db)
  {
    hide Step, Run;
    ReachableHolds(s);
    TablesLinked(s.db);
  }

  lemma RunTwo(s: Sys, a: Event, b: Event)
    ensures Run(s, [a, b]) == Step(Step(s, a), b)
  {
    hide Step;
    assert [a, b][..1] == [a];
    RunOne(s, a);
  }

  lemma DryRunRun(s: Sys, j: Job)
    requires !s.live && s.flight == Working(j) && j.phase.BeforeWrite?
    ensures Run(s, [Proceed(0)]) == Go(s, Working(j.(phase := Settling(Refused(DryRun, ContractChanged)))))
  {
    hide Reconcile, Dispatch, Finalize, Reschedule, Evaluate, ClaimRun, Act, Deliver, JudgeAnswer, Run, Resume;
    RunOne(s, Proceed(0));
  }

  /** The answer comes to what it should, and the last stage leaves the intent in the state that says so. */
  lemma SubmitConcludes(s: Sys, j: Job, answer: Answer)
    requires Reachable(s) && s.flight == Working(j)
    ensures var (stage, r) := JudgeAnswer(s.paymentHost, j, answer);
      var e := RecordStage(RecordStage(s.db, j.key, WriteStarted, s.clock), j.key, stage, s.clock);
      Concludes(j.request, s.paymentHost, answer, r) && j.key in e.intents && LeftIn(r, e.intents[j.key].state)
  {
    hide Step, Run, Reachable, JudgeAnswer, Concludes, LeftIn, RecordStage, Staged;
    ReachableJob(s);
    var (stage, r) := JudgeAnswer(s.paymentHost, j, answer);
    StagedIntent(s.db, j.key, WriteStarted, s.clock);
    var d := RecordStage(s.db, j.key, WriteStarted, s.clock);
    StagedIntent(d, j.key, stage, s.clock);
    AnswerConcludes(s.paymentHost, j, answer, d.intents[j.key], s.clock);
  }

  lemma StagedIntent(db: Db, k: Key, stage: Stage, now: Time)
    requires GraphExists(db, k)
    ensures var e := RecordStage(db, k, stage, now); GraphExists(e, k) && e.intents[k] == Staged(db.intents[k], stage, now)
  {}

  lemma SubmitRun(s: Sys, j: Job, answer: Answer)
    requires s.live && s.flight == Working(j) && j.phase.BeforeWrite?
    ensures var (stage, result) := JudgeAnswer(s.paymentHost, j, answer);
      Run(s, [Proceed(0), Proceed(0), Answered(answer), Proceed(0)])
        == s.(db := RecordStage(RecordStage(s.db, j.key, WriteStarted, s.clock), j.key, stage, s.clock),
              flight := Working(j.(phase := Settling(result))), log := s.log + [Opened(j.key)] + [Wrote(j.key)])
  {
    hide Step, Run;
    var (stage, result) := JudgeAnswer(s.paymentHost, j, answer);
    var started := RecordStage(s.db, j.key, WriteStarted, s.clock);
    var s1 := s.(db := started, flight := Working(j.(phase := WriteRecorded)), log := s.log + [Opened(j.key)]);
    StepOpened(s, j);
    var s2 := s1.(flight := Working(j.(phase := AtProvider)), log := s1.log + [Wrote(j.key)]);
    StepWrote(s1, j.(phase := WriteRecorded));
    RunTwo(s, Proceed(0), Proceed(0));
    JudgedRun(s2, j.(phase := AtProvider), answer);
    assert [Proceed(0), Proceed(0), Answered(answer), Proceed(0)] == [Proceed(0), Proceed(0)] + [Answered(answer), Proceed(0)];
    RunAppend(s, [Proceed(0), Proceed(0)], [Answered(answer), Proceed(0)]);
  }

  lemma JudgedRun(s: Sys, j: Job, answer: Answer)
    requires s.flight == Working(j) && j.phase.AtProvider?
    ensures var (stage, result) := JudgeAnswer(s.paymentHost, j, answer);
      Run(s, [Answered(answer), Proceed(0)])
        == s.(db := RecordStage(s.db, j.key, stage, s.clock), flight := Working(j.(phase := Settling(result))))
  {
    hide *;
    var (stage, result) := JudgeAnswer(s.paymentHost, j, answer);
    RunTwo(s, Answered(answer), Proceed(0));
    StepAnswered(s, j, answer);
    StepJudged(s.(flight := Working(j.(phase := Judged(stage, result)))), j.(phase := Judged(stage, result)));
  }

  lemma StepOpened(s: Sys, j: Job)
    requires s.live && s.flight == Working(j) && j.phase.BeforeWrite?
    ensures Step(s, Proceed(0)) == s.(db := RecordStage(s.db, j.key, WriteStarted, s.clock),
      flight := Working(j.(phase := WriteRecorded)), log := s.log + [Opened(j.key)])
  {}

  lemma StepWrote(s: Sys, j: Job)
    requires s.flight == Working(j) && j.phase.WriteRecorded?
    ensures Step(s, Proceed(0)) == s.(flight := Working(j.(phase := AtProvider)), log := s.log + [Wrote(j.key)])
  {}

  lemma StepAnswered(s: Sys, j: Job, answer: Answer)
    requires s.flight == Working(j) && j.phase.AtProvider?
    ensures var (stage, result) := JudgeAnswer(s.paymentHost, j, answer);
      Step(s, Answered(answer)) == s.(flight := Working(j.(phase := Judged(stage, result))))
  {
    hide Advance, Evaluate, Reconcile, ClaimRun, JudgeAnswer;
  }

  lemma StepJudged(s: Sys, j: Job)
    requires s.flight == Working(j) && j.phase.Judged?
    ensures Step(s, Proceed(0))
         == s.(db := RecordStage(s.db, j.key, j.phase.stage, s.clock), flight := Working(j.(phase := Settling(j.phase.result))))
  {}

  lemma RefusedRun(s: Sys, j: Job, state: CheckoutState, error: ErrorCode)
    requires s.flight == Working(j) && j.phase == Settling(Refused(state, error))
    ensures Step(s, Proceed(0)) ==
      if state.CheckoutRejected? then
        s.(db := RejectIntent(s.db, j.key, j.now, j.task.retry, j.task.maxCycles.Some? && j.key.no >= j.task.maxCycles.value),
           flight := AfterRefusal(j, Release))
      else s.(db := IntentNeedsAttention(s.db, j.key, error), flight := AfterRefusal(j, Attention))
  {
    hide Plan, WithCycle, Claimable;
  }

  lemma AcceptedRun(s: Sys, j: Job, o: Order, newMsg: MsgId)
    requires Reachable(s) && s.flight == Working(j) && j.phase == Settling(Accepted(o)) && newMsg !in s.db.msgs
    ensures Run(s, [Proceed(newMsg)])
         == To(s, RecordOrder(s.db, j.key, o, RecordedAt(s, j), newMsg).0, Dispatching(j.task, j.origin, Hold(j.key.no, o.heldAt)))
  {
    hide Work, Reconcile, Dispatch, Finalize, Reschedule, Evaluate, ClaimRun, JudgeAnswer, RecordOrder, ConfirmedGraph;
    AcceptedIsRecorded(s, j, o, newMsg);
    AcceptedShape(s, j, o, newMsg);
    RunOne(s, Proceed(newMsg));
  }

  /** A judged success is always recorded. */
  lemma AcceptedIsRecorded(s: Sys, j: Job, o: Order, newMsg: MsgId)
    requires Reachable(s) && s.flight == Working(j) && j.phase == Settling(Accepted(o)) && newMsg !in s.db.msgs
    ensures RecordOrder(s.db, j.key, o, RecordedAt(s, j), newMsg).1 == Recorded(newMsg)
  {
    hide Step, Run, RecordOrder, Tables, AllRows;
    ReachableJob(s);
    ReachableTables(s);
    ReachableReleased(s);
    AcceptedReady(s.db, j.key, o, RecordedAt(s, j), newMsg, s.mark);
  }

  lemma ReachableReleased(s: Sys)
    requires Reachable(s)
    ensures Dated(s.db.cycles, s.mark)
  {
    hide Step, Run;
    ReachableHolds(s);
  }

  lemma LookedRun(s: Sys, rows: seq<Engine.Incomplete>, lookup: Lookup)
    requires s.flight == Reconciling(rows) && rows != []
    ensures Run(s, [Looked(lookup)]) == Reconcile(s, rows, lookup)
  {
    hide Advance, Reconcile, Evaluate, ClaimRun, Act, Deliver, JudgeAnswer, Run;
    RunOne(s, Looked(lookup));
  }

  lemma DispatchRun(s: Sys, t: Task, origin: Origin, v: Verdict)
    requires s.flight == Dispatching(t, origin, v)
    ensures Run(s, [Proceed(0)]) == Dispatch(s, t, origin, v)
  {
    hide Work, Reconcile, Dispatch, Finalize, Reschedule, Evaluate, ClaimRun, Act, Deliver, JudgeAnswer, Run, Resume;
    RunOne(s, Proceed(0));
  }

  lemma NeverTurnedAway(s: Sys, t: Task, origin: Origin, v: Verdict)
    requires Reachable(s) && s.flight == Dispatching(t, origin, v)
    ensures Dispatched(s.db, t, origin.runNow, v).1
  {
    hide *;
    ReachableTables(s);
    ReachableVerdict(s, t, origin, v);
    DispatchedMild(s.db, t, origin.runNow, v);
  }

  lemma ReachableVerdict(s: Sys, t: Task, origin: Origin, v: Verdict)
    requires Reachable(s) && s.flight == Dispatching(t, origin, v)
    ensures t.cand in s.db.cands && VerdictReady(s.db, t, v)
  {
    hide Step, Run, Reachable, Tables, AllRows, Caps, Timing, SeatsDiffer, Mail;
    ReachableHolds(s);
  }
}
