/** Evaluating and planning a claimed candidate keep the engine's invariant. */
module EnginePlan {
  import opened Wrappers
  import opened Rows
  import opened Planning
  import opened Scheduling
  import opened Checkout
  import opened Engine
  import opened Invariants
  import opened Preservation
  import opened PlanProof
  import opened EngineInv
  import opened EngineProof
  import opened EngineSteps

  /** A claimed task meets what planning asks of its caller. */
  lemma TaskPlanReady(db: Db, t: Task, r: PlanRequest)
    requires Tables(db) && AllRows(db) && TaskReady(db, t) && Dated(db.cycles, r.now)
    requires r.cand == t.cand && r.sub == t.sub && r.config == Settings(db, t.cand)
    ensures PlanReady(db, r)
  {}

  lemma PutOnlyAt(db: Db, c: CandId, a: Candidate)
    ensures OnlyAt(db, Put(db, c, a), c)
  {}

  lemma CycleOnlyAt(db: Db, r: PlanRequest)
    requires r.cand in db.cands && r.WellFormed() && r.config.Valid()
    ensures OnlyAt(db, WithCycle(db, r), r.cand)
  {}

  lemma UnplannedCases(db: Db, r: PlanRequest)
    requires r.config.Valid() && !Plan(db, r).1.Planned? && r.cand in db.cands
    ensures var e := Plan(db, r).0; var a := db.cands[r.cand];
      || e == db || e == Put(db, r.cand, Touched(a, r, WaitingAvailability))
      || e == Put(db, r.cand, Touched(a, r, SkippedLimit)) || e == Put(db, r.cand, Touched(a, r, WaitingBudget))
  {}

  lemma PutSame(db: Db, c: CandId, a: Candidate)
    ensures var e := Put(db, c, a); e == Put(db, c, e.cands[c]) && e.cands[c] == a
  {}

  lemma UnplannedShape(db: Db, r: PlanRequest)
    requires r.config.Valid() && !Plan(db, r).1.Planned? && r.cand in db.cands
    ensures var e := Plan(db, r).0; r.cand in e.cands && e == Put(db, r.cand, e.cands[r.cand])
    ensures SameIdentity(db.cands[r.cand], Plan(db, r).0.cands[r.cand])
  {
    UnplannedCases(db, r);
    var a := db.cands[r.cand];
    PutSame(db, r.cand, Touched(a, r, WaitingAvailability));
    PutSame(db, r.cand, Touched(a, r, SkippedLimit));
    PutSame(db, r.cand, Touched(a, r, WaitingBudget));
    assert Put(db, r.cand, a) == db;
  }

  lemma UnknownShape(db: Db, r: PlanRequest)
    requires r.config.Valid() && r.cand !in db.cands
    ensures Plan(db, r).0 == db && !Plan(db, r).1.Planned?
  {}

  lemma PlannedShape(db: Db, r: PlanRequest)
    requires r.config.Valid() && Plan(db, r).1.Planned?
    ensures r.WellFormed() && Claimable(db, r) && Plan(db, r) == (WithCycle(db, r), Planned(db.cands[r.cand].cycleNo + 1))
  {}

  lemma PlanOnlyAt(db: Db, r: PlanRequest)
    requires r.config.Valid()
    ensures OnlyAt(db, Plan(db, r).0, r.cand)
  {
    if Plan(db, r).1.Planned? {
      PlannedShape(db, r);
      CycleOnlyAt(db, r);
    } else if r.cand in db.cands {
      UnplannedShape(db, r);
      PutOnlyAt(db, r.cand, Plan(db, r).0.cands[r.cand]);
    } else {
      UnknownShape(db, r);
      SteadyCalm(db, db);
    }
  }

  lemma CycleMarks(db: Db, r: PlanRequest)
    requires r.cand in db.cands && r.WellFormed() && r.config.Valid()
    requires NewKey(db, r) !in db.cycles && db.intents.Keys == db.cycles.Keys
    ensures var e := WithCycle(db, r);
      MarksKept(db.intents, e.intents) && forall mark :: r.now <= mark && Dated(db.cycles, mark) ==> Dated(e.cycles, mark)
  {}

  lemma PlanMarks(db: Db, r: PlanRequest)
    requires Tables(db) && r.config.Valid()
    ensures var e := Plan(db, r).0;
      MarksKept(db.intents, e.intents) && forall mark :: r.now <= mark && Dated(db.cycles, mark) ==> Dated(e.cycles, mark)
  {
    if Plan(db, r).1.Planned? {
      PlannedShape(db, r);
      assert NewKey(db, r) !in db.cycles;
      CycleMarks(db, r);
    } else if r.cand in db.cands {
      UnplannedShape(db, r);
    } else {
      UnknownShape(db, r);
    }
  }

  /** A plan that does not go through leaves the candidate at its cycle, and at rest. */
  lemma UnplannedRest(db: Db, r: PlanRequest)
    requires r.config.Valid() && !Plan(db, r).1.Planned? && r.cand in db.cands && AtRest(db, r.cand)
    ensures var e := Plan(db, r).0;
      AtRest(e, r.cand) && r.cand in e.cands && SameIdentity(db.cands[r.cand], e.cands[r.cand])
  {
    UnplannedShape(db, r);
  }

  /** A plan that goes through leaves a checkout that may start. */
  lemma PlannedReady(db: Db, r: PlanRequest, t: Task)
    requires r.config.Valid() && Plan(db, r).1.Planned? && TaskReady(db, t) && r.cand == t.cand
    ensures var (e, outcome) := Plan(db, r); var k := Key(t.cand, outcome.cycleNo);
      && GraphExists(e, k) && HasTask(e, k) && TaskOf(e, k) == t && e.cands[k.cand].cycleNo == k.no
      && e.allocs[k].active && e.intents[k].state.Pending?
      && FirstRequest(k, e.cands[k.cand].session, r) == LoadRequest(e, k)
  {}

  lemma RestOfRenewal(s: Sys, u: Sys, o: Origin, c: CandId)
    requires OriginReady(s, o, c) && OnlyAt(s.db, u.db, c) && u.mark == s.mark
    ensures OriginReady(u, o, c)
  {}

  lemma AfterPlanReady(s: Sys, task: Task, origin: Origin, r: PlanRequest)
    requires r.config.Valid() && TaskReady(s.db, task) && r.cand == task.cand && OriginReady(s, origin, task.cand)
    requires r.now <= s.mark
    ensures var (d, outcome) := Plan(s.db, r); FlightInv(To(s, d, AfterPlan(d, outcome, r, task, origin)))
  {
    hide Plan, WithCycle, Claimable;
    var (d, outcome) := Plan(s.db, r);
    var u := To(s, d, AfterPlan(d, outcome, r, task, origin));
    PlanOnlyAt(s.db, r);
    RestOfRenewal(s, u, origin, task.cand);
    if outcome.Planned? { PlannedReady(s.db, r, task); } else { UnplannedRest(s.db, r); }
  }

  /** The evaluation found seats, and the subscription has the limits a plan needs. */
  predicate Plans(s: Sys, e: Evaluation) {
    && e.Ready? && s.flight.Evaluating? && s.flight.task.sub in s.db.subs
    && !LimitsMissing(s.db.subs[s.flight.task.sub].config)
  }

  lemma EvaluateShape(s: Sys, e: Evaluation)
    requires s.flight.Evaluating? && TaskReady(s.db, s.flight.task) && Tables(s.db) && Plans(s, e)
    ensures var f := s.flight; var r := PlanFor(s, f.task, f.now, f.version, e, Settings(s.db, f.task.cand));
      r.config.Valid() && var (d, outcome) := Plan(s.db, r);
      Evaluate(s, e) == To(s, d, AfterPlan(d, outcome, r, f.task, FromRenewal(f.rest, f.runNow)))
  {}

  lemma EvaluateSide(s: Sys, e: Evaluation)
    requires Tables(s.db) && AllRows(s.db) && Side(s) && s.flight.Evaluating?
    ensures Side(Evaluate(s, e))
  {
    hide *;
    if Plans(s, e) { ReadySide(s, e); } else { UnreadySide(s, e); }
  }

  lemma ReadySide(s: Sys, e: Evaluation)
    requires Tables(s.db) && AllRows(s.db) && Side(s) && s.flight.Evaluating? && Plans(s, e)
    ensures Side(Evaluate(s, e))
  {
    var f := s.flight;
    var r := PlanFor(s, f.task, f.now, f.version, e, Settings(s.db, f.task.cand));
    EvaluateShape(s, e);
    AfterPlanReady(s, f.task, FromRenewal(f.rest, f.runNow), r);
    PlanMarks(s.db, r);
    MarksLog(s.db.intents, Plan(s.db, r).0.intents, s.log);
  }

  lemma UnreadySide(s: Sys, e: Evaluation)
    requires AllRows(s.db) && Side(s) && s.flight.Evaluating? && !Plans(s, e)
    ensures Side(Evaluate(s, e))
  {
    hide AfterPlan, Plan;
    RestUnblocked(s.db, s.flight.task.cand);
  }

  /** A candidate at rest has no confirmed cycle without a due time. */
  lemma RestUnblocked(db: Db, c: CandId)
    requires AllRows(db) && AtRest(db, c)
    ensures NoOpenHold(db, c)
  {}

  lemma EvaluateKeeps(s: Sys, e: Evaluation)
    requires Inv(s.db) && s.flight.Evaluating? && TaskReady(s.db, s.flight.task) && Dated(s.db.cycles, s.flight.now)
    ensures Inv(Evaluate(s, e).db)
  {
    if Plans(s, e) {
      var f := s.flight;
      var r := PlanFor(s, f.task, f.now, f.version, e, Settings(s.db, f.task.cand));
      EvaluateShape(s, e);
      TaskPlanReady(s.db, f.task, r);
      PlanKeeps(s.db, r);
    }
  }
}
