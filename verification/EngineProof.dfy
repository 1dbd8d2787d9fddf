/** Every step of the engine keeps its invariant, so every run does. */
module EngineProof {
  import opened Wrappers
  import opened Rows
  import opened Planning
  import opened Scheduling
  import opened Checkout
  import opened Environment
  import opened Mailbox
  import opened Engine
  import opened Invariants
  import opened Preservation
  import opened PlanProof
  import opened EngineInv

  // ----- steps that leave every booking row as it is

  /** The rows of every known candidate are as before; only catalogue, settings, states and messages may differ. */
  ghost predicate Calm(d: Db, e: Db) {
    && e.intents == d.intents && e.cycles == d.cycles && e.allocs == d.allocs && e.orders == d.orders
    && (forall c :: c in d.cands ==> Untouched(d, e, c))
  }

  lemma JobKept(s: Sys, u: Sys, j: Job)
    requires JobReady(s, j) && Calm(s.db, u.db) && u.mark == s.mark && u.log == s.log && u.live == s.live
    ensures JobReady(u, j)
  {}

  lemma VerdictKept(d: Db, e: Db, t: Task, v: Verdict)
    requires VerdictReady(d, t, v) && Calm(d, e) && t.cand in d.cands
    ensures VerdictReady(e, t, v)
  {}

  lemma FlightKept(s: Sys, u: Sys)
    requires FlightInv(s) && Calm(s.db, u.db) && u.flight == s.flight && u.mark == s.mark && u.log == s.log && u.live == s.live
    ensures FlightInv(u)
  {
    match s.flight
    case Rescheduling(keys) =>
      forall i | 0 <= i < |keys| ensures Untouched(s.db, u.db, keys[i].cand) { assert RepairReady(s.db, keys[i]); }
      RepairsUntouched(s.db, u.db, keys);
    case Reconciling(rows) => RowsKept(s.db, u.db, rows);
    case Finalizing(k, o, rows) => RowsKept(s.db, u.db, rows); assert Untouched(s.db, u.db, k.cand);
    case FinalScheduling(k, _, rows) => RowsKept(s.db, u.db, rows); assert Untouched(s.db, u.db, k.cand);
    case Resuming(queue, runNow) =>
      forall i | 0 <= i < |queue| ensures Untouched(s.db, u.db, queue[i].cand) { assert ResumeReady(s.db, queue[i]); }
      QueueUntouched(s.db, u.db, queue);
    case Renewing(tasks, _) =>
      forall i | 0 <= i < |tasks| ensures Untouched(s.db, u.db, tasks[i].cand) { assert TaskReady(s.db, tasks[i]); }
      TasksUntouched(s.db, u.db, tasks);
    case Evaluating(t, rest, runNow, _, _) =>
      TaskUntouched(s.db, u.db, t);
      OriginUntouched(s, u, FromRenewal(rest, runNow), t.cand);
    case Working(job) => JobKept(s, u, job);
    case Dispatching(t, origin, v) =>
      OriginUntouched(s, u, origin, t.cand);
      VerdictKept(s.db, u.db, t, v);
    case _ =>
  }

  lemma RowsKept(d: Db, e: Db, rows: seq<Incomplete>)
    requires RowsReady(d, rows) && Calm(d, e)
    ensures RowsReady(e, rows)
  {}

  /** The same rows, candidates and settings are still there. */
  ghost predicate Steady(d: Db, e: Db) {
    && e.intents == d.intents && e.cycles == d.cycles && e.allocs == d.allocs && e.orders == d.orders
    && (forall c :: c in d.cands ==> c in e.cands && SameIdentity(d.cands[c], e.cands[c]))
    && (forall n :: n in d.subs ==> n in e.subs && e.subs[n].config == d.subs[n].config)
  }

  lemma SteadyCalm(d: Db, e: Db)
    requires Steady(d, e)
    ensures Calm(d, e)
  {}

  lemma GrowsSteady(d: Db, e: Db)
    requires Grows(d, e)
    ensures Steady(d, e)
  {}

  lemma StopSteady(db: Db, c: CandId)
    ensures Steady(db, StopByUser(db, c))
  {
    if c in db.cands { assert StopByUser(db, c).cands == db.cands[c := Halted(db.cands[c])]; }
  }

  lemma ActCalm(db: Db, x: Action)
    requires ValidSettings(db)
    ensures Calm(db, Act(db, x))
  {
    ActGrows(db, x);
    if Grows(db, Act(db, x)) { GrowsSteady(db, Act(db, x)); } else { StopSteady(db, x.c); }
    SteadyCalm(db, Act(db, x));
  }

  lemma DeliverCalm(db: Db, x: Delivery)
    ensures Calm(db, Deliver(db, x))
  {
    DeliverMoves(db, x);
    SteadyCalm(db, Deliver(db, x));
  }

  lemma CalmSide(s: Sys, e: Db)
    requires Side(s) && Calm(s.db, e)
    ensures Side(s.(db := e))
  {
    FlightKept(s, s.(db := e));
  }

  lemma OutsideSide(s: Sys, x: Action)
    requires ValidSettings(s.db) && Side(s)
    ensures Side(Step(s, Outside(x)))
  {
    hide Advance, Evaluate, Reconcile, ClaimRun, Act, Deliver, JudgeAnswer;
    ActCalm(s.db, x);
    CalmSide(s, Act(s.db, x));
  }

  lemma OutboxSide(s: Sys, x: Delivery)
    requires Side(s)
    ensures Side(Step(s, Outbox(x)))
  {
    hide Advance, Evaluate, Reconcile, ClaimRun, Act, Deliver, JudgeAnswer;
    DeliverCalm(s.db, x);
    CalmSide(s, Deliver(s.db, x));
  }

  lemma TickSide(s: Sys, t: Time)
    requires Side(s)
    ensures Side(Step(s, Tick(t)))
  {
    hide Advance, Evaluate, Reconcile, ClaimRun, Act, Deliver, JudgeAnswer;
    FlightKept(s, Step(s, Tick(t)));
  }

  // ----- steps that only move the booking thread

  lemma RaiseSide(s: Sys, j: Job)
    requires Side(s) && s.flight == Working(j)
    ensures Side(Raise(s, j.task, j.origin))
  {}

  lemma BootSide(s: Sys, keys: seq<Key>)
    requires AllRows(s.db) && Tables(s.db) && Side(s)
    ensures Side(Step(s, Boot(keys)))
  {
    hide Advance, Evaluate, Reconcile, ClaimRun, Act, Deliver, JudgeAnswer;
    if Step(s, Boot(keys)) != s {
      forall i | 0 <= i < |keys| ensures RepairReady(s.db, keys[i]) && s.db.cands[keys[i].cand].cycleNo == keys[i].no {
        assert keys[i] in UnscheduledKeys(s.db);
        assert RowsAt(s.db, keys[i]);
      }
    }
  }

  lemma ListedReady(db: Db, rows: seq<Incomplete>)
    requires AllRows(db) && Tables(db) && ListsIncomplete(db, rows)
    ensures RowsReady(db, rows)
  {
    hide AllRows, Tables, Unfinished;
    forall i | 0 <= i < |rows|
      ensures RowReady(db, rows[i]) && db.cands[rows[i].key.cand].cycleNo == rows[i].key.no
    { ListedRow(db, rows[i]); }
    forall i, j | 0 <= i < j < |rows| ensures rows[i].key.cand != rows[j].key.cand {
      ListedRow(db, rows[i]);
      ListedRow(db, rows[j]);
      assert rows[i].key != rows[j].key;
    }
  }

  lemma ListedRow(db: Db, r: Incomplete)
    requires AllRows(db) && Tables(db) && r.key in db.intents && Unfinished(db.intents[r.key].state)
    requires r.started == db.intents[r.key].writeStartedAt.Some?
    ensures RowReady(db, r) && db.cands[r.key.cand].cycleNo == r.key.no
  {
    assert RowsAt(db, r.key);
  }

  lemma ListSide(s: Sys, rows: seq<Incomplete>)
    requires AllRows(s.db) && Tables(s.db) && Side(s)
    ensures Side(Step(s, ListIncomplete(rows)))
  {
    hide Advance, Evaluate, Reconcile, ClaimRun, Act, Deliver, JudgeAnswer;
    if Step(s, ListIncomplete(rows)) != s { ListedReady(s.db, rows); }
  }

  lemma StartRunSide(s: Sys, queue: seq<Key>)
    requires AllRows(s.db) && Tables(s.db) && Side(s)
    ensures Side(Step(s, StartRun(queue)))
  {
    hide Advance, Evaluate, Reconcile, ClaimRun, Act, Deliver, JudgeAnswer;
    var u := Step(s, StartRun(queue));
    if u != s {
      forall i | 0 <= i < |queue| ensures ResumeReady(s.db, queue[i]) {
        assert Resumable(s.db, queue[i], s.clock) && RowsAt(s.db, queue[i]);
      }
      forall i, j | 0 <= i < j < |queue| ensures queue[i].cand != queue[j].cand {
        assert ResumeReady(s.db, queue[i]) && ResumeReady(s.db, queue[j]);
      }
    }
  }

  lemma LoadSide(s: Sys)
    requires Side(s)
    ensures Side(Step(s, LoadContext))
  {
    hide Advance, Evaluate, Reconcile, ClaimRun, Act, Deliver, JudgeAnswer;
    if s.flight.Renewing? && s.flight.tasks != [] {
      var ts := s.flight.tasks;
      assert TaskReady(s.db, ts[0]);
      RestReady(s.db, ts);
    }
  }

  lemma RestReady(db: Db, ts: seq<Task>)
    requires TasksReady(db, ts) && ts != []
    ensures TasksReady(db, ts[1..]) && forall i :: 0 <= i < |ts[1..]| ==> ts[1..][i].cand != ts[0].cand
  {}

  lemma JudgeConsistent(db: Db, k: Key, paymentHost: string, j: Job, a: Answer)
    requires k in db.intents && k.cand in db.cands && j.request == LoadRequest(db, k)
    ensures var (stage, result) := JudgeAnswer(paymentHost, j, a); Consistent(db.intents[k], stage, result)
  {
    match a
    case Observed(o) => ValidatedIsPayable(db, k, o, paymentHost);
    case _ =>
  }

  /** What the validator accepts for the request of an intent, the recorder accepts for that intent. */
  lemma ValidatedIsPayable(db: Db, k: Key, o: Observation, paymentHost: string)
    requires k in db.intents && k.cand in db.cands
    ensures var r := Validate(LoadRequest(db, k), o, paymentHost); r.Accepted? ==> Payable(db.intents[k], r.order)
    ensures var r := Validate(LoadRequest(db, k), o, paymentHost); r.Refused? ==> r.state.CheckoutAmbiguous?
  {
    var r := Validate(LoadRequest(db, k), o, paymentHost);
    if r.Accepted? {
      var text := UrlText(r.order.url);
      assert text[0] == 'h' by { assert text[..5] == "https"; }
      StripKeeps(text, 0);
    }
  }

  /** Stripping keeps every character that is not blank. */
  lemma {:induction false} StripLeftKeeps(t: string, i: nat)
    requires i < |t| && !IsBlank(t[i])
    ensures StripLeft(t) != "" && t[i] in StripLeft(t)
  {
    if IsBlank(t[0]) { StripLeftKeeps(t[1..], i - 1); }
  }

  lemma {:induction false} StripRightKeeps(t: string, c: char)
    requires c in t && !IsBlank(c)
    ensures StripRight(t) != "" && c in StripRight(t)
  {
    if IsBlank(t[|t| - 1]) {
      assert t == t[..|t| - 1] + [t[|t| - 1]];
      StripRightKeeps(t[..|t| - 1], c);
    }
  }

  lemma StripKeeps(t: string, i: nat)
    requires i < |t| && !IsBlank(t[i])
    ensures Strip(t) != ""
  {
    StripLeftKeeps(t, i);
    StripRightKeeps(StripLeft(t), t[i]);
  }

  lemma AnsweredSide(s: Sys, a: Answer)
    requires Side(s)
    ensures Side(Step(s, Answered(a)))
  {
    hide Work, Reconcile, Dispatch, Finalize, Reschedule, Evaluate, ClaimRun, Act, Deliver, JudgeAnswer;
    if s.flight.Working? && s.flight.job.phase.AtProvider? {
      JudgeConsistent(s.db, s.flight.job.key, s.paymentHost, s.flight.job, a);
    }
  }
}
