/** A plan made for settings that the user has changed meanwhile is refused. */
module StalePlans {
  import opened Wrappers
  import opened Rows
  import opened Planning
  import opened Scheduling
  import opened Checkout
  import opened Environment
  import opened Mailbox
  import opened Engine
  import opened Invariants
  import opened EngineInv
  import opened EnginePlan
  import opened EngineWork
  import opened EngineRuns
  import opened Guarantees
  import opened MessageRuns

  /** Subscriptions stay, with versions that only grow. */
  ghost predicate VersionsGrow(d: map<SubId, Subscription>, e: map<SubId, Subscription>) {
    forall n :: n in d ==> n in e && e[n].version >= d[n].version
  }

  lemma WorkSubs(s: Sys, j: Job, newMsg: MsgId)
    ensures Work(s, j, newMsg).db.subs == s.db.subs
  {
    hide RecordOrder;
    if j.phase.Settling? && j.phase.result.Accepted? {
      RecordSubs(s.db, j.key, j.phase.result.order, RecordedAt(s, j), newMsg);
    }
  }

  lemma RecordSubs(db: Db, k: Key, o: Order, now: Time, newMsg: MsgId)
    ensures RecordOrder(db, k, o, now, newMsg).0.subs == db.subs
  {}

  lemma AdvanceSubs(s: Sys, newMsg: MsgId)
    ensures Advance(s, newMsg).db.subs == s.db.subs
  {
    if s.flight.Working? { WorkSubs(s, s.flight.job, newMsg); }
    else if s.flight.Finalizing? { RecordSubs(s.db, s.flight.key, s.flight.order, s.clock, newMsg); }
    else { LoopMail(s, newMsg); }
  }

  lemma EvaluateSubs(s: Sys, e: Evaluation)
    requires Tables(s.db) && s.flight.Evaluating? && TaskReady(s.db, s.flight.task)
    ensures Evaluate(s, e).db.subs == s.db.subs
  {
    if Plans(s, e) {
      var f := s.flight;
      EvaluateShape(s, e);
      var r := PlanFor(s, f.task, f.now, f.version, e, Settings(s.db, f.task.cand));
      if Plan(s.db, r).1.Planned? { PlannedShape(s.db, r); }
      else if r.cand in s.db.cands { UnplannedShape(s.db, r); }
    }
  }

  lemma PutVersion(d: map<SubId, Subscription>, n: SubId, r: Subscription)
    requires n in d ==> r.version >= d[n].version
    ensures VersionsGrow(d, d[n := r])
  {}

  lemma EnabledVersions(db: Db, n: SubId, enabled: bool)
    ensures VersionsGrow(db.subs, SetEnabled(db, n, enabled).subs)
  {
    if n in db.subs { PutVersion(db.subs, n, db.subs[n].(enabled := enabled, version := db.subs[n].version + 1)); }
  }

  lemma DeletedVersions(db: Db, n: SubId)
    ensures VersionsGrow(db.subs, DeleteSubscription(db, n).subs)
  {
    if n in db.subs {
      PutVersion(db.subs, n, db.subs[n].(enabled := false, deleted := true, version := db.subs[n].version + 1));
    }
  }

  lemma ActVersions(db: Db, x: Action)
    ensures VersionsGrow(db.subs, Act(db, x).subs)
  {
    if x.UserEnables? { EnabledVersions(db, x.s, x.enabled); }
    else if x.UserDeletes? { DeletedVersions(db, x.s); }
    else if !x.UserSubscribes? { assert Act(db, x).subs == db.subs; }
  }

  lemma StepVersions(s: Sys, e: Event)
    requires Reachable(s)
    ensures VersionsGrow(s.db.subs, Step(s, e).db.subs)
  {
    hide Advance, Evaluate, Reconcile, ClaimRun, Act, Deliver, JudgeAnswer;
    if e.Proceed? { AdvanceSubs(s, e.newMsg); }
    else if e.Outside? { ActVersions(s.db, e.action); }
    else if e.Outbox? { DeliverMoves(s.db, e.delivery); }
    else if !e.Evaluated? { OtherMail(s, e); }
    else if s.flight.Evaluating? { ReachableTask(s); ReachableTables(s); EvaluateSubs(s, e.evaluation); }
  }

  /** The version an evaluation works with is not ahead of the tables. */
  ghost predicate VersionRead(s: Sys) {
    s.flight.Evaluating? ==> s.flight.task.sub in s.db.subs && s.flight.version <= s.db.subs[s.flight.task.sub].version
  }

  lemma ComesToEvaluate(s: Sys, e: Event)
    requires Step(s, e).flight.Evaluating? && Step(s, e).flight != s.flight
    ensures VersionRead(Step(s, e))
  {
    hide Advance, Evaluate, Reconcile, ClaimRun, Act, Deliver, JudgeAnswer;
    if e.Proceed? { AdvanceGoesElsewhere(s, e.newMsg); }
    else if e.Evaluated? && s.flight.Evaluating? { EvaluateGoesElsewhere(s, e.evaluation); }
    else if e.Looked? && s.flight.Reconciling? && s.flight.rows != [] { ReconcileGoesElsewhere(s, s.flight.rows, e.lookup); }
    else if e.ClaimDue? && s.flight.Claiming? { ClaimGoesElsewhere(s, s.flight.runNow, e.chosen, e.tasks); }
  }

  lemma AdvanceGoesElsewhere(s: Sys, newMsg: MsgId)
    ensures Advance(s, newMsg).flight.Evaluating? ==> Advance(s, newMsg).flight == s.flight
  {
    hide RecordOrder, RejectIntent, IntentNeedsAttention, ScheduleAfterHold, Dispatched, RecordStage, LoadRequest, TaskOf;
  }

  lemma EvaluateGoesElsewhere(s: Sys, e: Evaluation)
    requires s.flight.Evaluating?
    ensures !Evaluate(s, e).flight.Evaluating?
  {
    hide Plan;
  }

  lemma ReconcileGoesElsewhere(s: Sys, rows: seq<Engine.Incomplete>, lookup: Lookup)
    requires rows != []
    ensures !Reconcile(s, rows, lookup).flight.Evaluating?
  {
    hide ApplyRecovery, Decide;
  }

  lemma ClaimGoesElsewhere(s: Sys, runNow: Time, chosen: set<CandId>, tasks: seq<Task>)
    requires s.flight.Claiming?
    ensures !ClaimRun(s, runNow, chosen, tasks).flight.Evaluating?
  {
    hide Claim, ClaimedTasks, Due;
  }

  lemma {:induction false} RunVersions(live: bool, paymentHost: string, events: seq<Event>)
    ensures VersionRead(Run(Start(live, paymentHost), events))
  {
    hide Step;
    if events != [] {
      var before, e := events[..|events| - 1], events[|events| - 1];
      var s := Run(Start(live, paymentHost), before);
      RunVersions(live, paymentHost, before);
      assert Reachable(s);
      StepVersions(s, e);
      if Step(s, e).flight.Evaluating? && Step(s, e).flight != s.flight { ComesToEvaluate(s, e); }
    }
  }

  /** The user pauses, resumes or deletes the subscription. */
  predicate Changes(x: Action, n: SubId) { (x.UserEnables? && x.s == n) || (x.UserDeletes? && x.s == n) }

  lemma ChangeBumps(db: Db, x: Action, n: SubId)
    requires n in db.subs && !db.subs[n].deleted && Changes(x, n)
    ensures n in Act(db, x).subs && Act(db, x).subs[n].version == db.subs[n].version + 1
  {}

  lemma {:induction false} LaterVersion(s: Sys, events: seq<Event>, n: SubId, version: nat)
    requires Reachable(s) && n in s.db.subs && s.db.subs[n].version > version
    ensures n in Run(s, events).db.subs && Run(s, events).db.subs[n].version > version
  {
    hide Step;
    if events != [] {
      var before := events[..|events| - 1];
      LaterVersion(s, before, n, version);
      StillReachable(s, before);
      StepVersions(Run(s, before), events[|events| - 1]);
    }
  }

  /** An older version is refused without any change. */
  lemma OldVersionIsRefused(db: Db, r: PlanRequest)
    requires r.config.Valid() && r.WellFormed() && r.sub in db.subs && r.version.Some? && r.version.value < db.subs[r.sub].version
    ensures Plan(db, r).0 == db && (Plan(db, r).1.AlreadyActive? || Plan(db, r).1.NotFound?)
  {}

  /**
   Once the user has paused, resumed or deleted a subscription, no evaluation that read its settings before can
   plan for it, however much else has happened in between.
   */
  lemma ChangedPlanIsRefused(s: Sys, x: Action, more: seq<Event>, e: Evaluation)
    requires Reachable(s) && s.flight.Evaluating? && s.flight.task.sub in s.db.subs
    requires !s.db.subs[s.flight.task.sub].deleted && Changes(x, s.flight.task.sub)
    requires Run(Step(s, Outside(x)), more).flight == s.flight
    ensures var u := Run(Step(s, Outside(x)), more); Evaluate(u, e).db == u.db && Evaluate(u, e).flight.Dispatching?
  {
    hide Advance, Evaluate, Reconcile, ClaimRun, Act, Deliver, JudgeAnswer;
    var n, v := s.flight.task.sub, Step(s, Outside(x));
    var live, paymentHost, events :| s == Run(Start(live, paymentHost), events);
    RunVersions(live, paymentHost, events);
    ChangeBumps(s.db, x, n);
    ReachableStep(s, Outside(x));
    LaterVersion(v, more, n, s.flight.version);
    StillReachable(v, more);
    RefusedAt(Run(v, more), e);
  }

  lemma ReachableStep(s: Sys, e: Event)
    requires Reachable(s)
    ensures Reachable(Step(s, e))
  {
    hide Step;
    StillReachable(s, [e]);
    assert [e][..0] == [];
    assert Run(s, [e]) == Step(s, e);
  }

  lemma RefusedAt(s: Sys, e: Evaluation)
    requires Reachable(s) && s.flight.Evaluating? && s.flight.task.sub in s.db.subs
    requires s.flight.version < s.db.subs[s.flight.task.sub].version
    ensures Evaluate(s, e).db == s.db && Evaluate(s, e).flight.Dispatching?
  {
    hide Step, Run;
    ReachableTask(s);
    ReachableTables(s);
    if Plans(s, e) {
      var f := s.flight;
      EvaluateShape(s, e);
      var r := PlanFor(s, f.task, f.now, f.version, e, Settings(s.db, f.task.cand));
      if r.WellFormed() { OldVersionIsRefused(s.db, r); }
    }
  }
}
