/** Which candidates and checkouts a pass takes up, and what a claim leaves behind, in terms of the rows alone. */
module Uptake {
  import opened Wrappers
  import opened Rows
  import opened Planning
  import opened Scheduling
  import opened Checkout
  import opened Environment
  import opened Mailbox
  import opened Engine
  import opened Invariants
  import opened EngineInv
  import opened Guarantees

  // ----- what is taken up

  /** A live candidate of an enabled subscription that waits, and whose time has come. */
  predicate MayRun(db: Db, c: CandId, now: Time) {
    && c in db.cands && db.cands[c].sub in db.subs && db.subs[db.cands[c].sub].enabled && db.cands[c].live
    && db.cands[c].state in {Queued, WaitingAvailability, WaitingBudget, RenewalWaiting}
    && (db.cands[c].nextRunAt.None? || db.cands[c].nextRunAt.value <= now)
  }

  lemma DueExactly(db: Db, c: CandId, now: Time)
    ensures Due(db, c, now) <==> MayRun(db, c, now)
  {}

  /** Those without a time come first, then those whose time comes first, then smaller slots, then smaller ids. */
  predicate GoesBefore(cands: map<CandId, Candidate>, a: CandId, b: CandId) {
    && a in cands && b in cands
    && var x, y := cands[a], cands[b];
       || (x.nextRunAt.None? && y.nextRunAt.Some?)
       || (x.nextRunAt.Some? && y.nextRunAt.Some? && x.nextRunAt.value < y.nextRunAt.value)
       || (x.nextRunAt == y.nextRunAt && (x.ticketNo < y.ticketNo || (x.ticketNo == y.ticketNo && a <= b)))
  }

  /** The watch is over, or the subscription allows no further cycle. */
  predicate IsOver(a: Candidate, g: Config, now: Time) {
    (a.watchUntil.Some? && a.watchUntil.value <= now) || (g.maxCycles.Some? && g.maxCycles.value <= a.cycleNo)
  }

  /** A checkout of the candidate's current cycle that is to be written, for a session still ahead and settings still valid. */
  predicate MayResume(db: Db, k: Key, now: Time) {
    && k in db.intents && db.intents[k].state in {Pending, RetryAllowed}
    && k.cand in db.cands && db.cands[k.cand].state.Submitting? && db.cands[k.cand].live && db.cands[k.cand].cycleNo == k.no
    && (db.cands[k.cand].watchUntil.None? || now < db.cands[k.cand].watchUntil.value)
    && db.cands[k.cand].session in db.sessions && now < db.sessions[db.cands[k.cand].session].startsAt
    && db.cands[k.cand].sub in db.subs && db.subs[db.cands[k.cand].sub].enabled && !db.subs[db.cands[k.cand].sub].deleted
    && db.subs[db.cands[k.cand].sub].version == db.cands[k.cand].subVersion
  }

  lemma ResumableExactly(s: Sys, k: Key, now: Time)
    requires Reachable(s)
    ensures Resumable(s.db, k, now) <==> MayResume(s.db, k, now)
  {
    hide Reachable, Step, Run, RowsAt;
    ReachableTables(s);
    assert k in s.db.intents && k.cand in s.db.cands ==> GraphExists(s.db, k);
  }

  /** A checkout whose outcome is open. */
  predicate IsOpen(db: Db, k: Key) { k in db.intents && db.intents[k].state in {Pending, WriteOpen, Unknown, Validated} }

  /** A purchase whose hold has not been scheduled. */
  predicate LacksSchedule(db: Db, k: Key) {
    k in db.orders && k in db.intents && db.intents[k].state.Confirmed? && k in db.cycles && db.cycles[k].dueAt.None?
  }

  // ----- what a claim leaves behind

  /** The hold has run out, and what it kept has not been given back. */
  predicate RunsOut(y: Cycle, now: Time) { y.dueAt.Some? && y.dueAt.value <= now && y.releasedAt.None? }

  predicate IsClosed(y: Cycle, z: Cycle, now: Time) {
    z == y.(state := if y.state.CycleRenewal? then CycleElapsed else y.state, endedAt := Some(now), releasedAt := Some(now))
  }

  ghost predicate ClosesCycles(d: Db, e: Db, now: Time) {
    && e.cycles.Keys == d.cycles.Keys && e.allocs.Keys == d.allocs.Keys
    && (forall k :: k in d.cycles ==> if RunsOut(d.cycles[k], now) then IsClosed(d.cycles[k], e.cycles[k], now) else e.cycles[k] == d.cycles[k])
    && (forall k :: k in d.allocs ==>
          if k in d.cycles && RunsOut(d.cycles[k], now) then e.allocs[k] == d.allocs[k].(active := false) else e.allocs[k] == d.allocs[k])
  }

  /** A claimed candidate is kept for its task, or stopped if there is nothing left to do. */
  predicate IsClaimed(a: Candidate, b: Candidate, g: Config, now: Time) {
    if IsOver(a, g, now) then b == a.(state := Stopped, nextRunAt := None) else b == a.(state := RenewalClaimed)
  }

  ghost predicate ClaimsCandidates(d: Db, e: Db, chosen: set<CandId>, now: Time) {
    && e.cands.Keys == d.cands.Keys
    && forall c :: c in d.cands ==>
         if c in chosen && d.cands[c].sub in d.subs then IsClaimed(d.cands[c], e.cands[c], d.subs[d.cands[c].sub].config, now)
         else e.cands[c] == d.cands[c]
  }

  /** The task of a claimed candidate. */
  predicate IsTaskOf(d: Db, t: Task) {
    && t.cand in d.cands && d.cands[t.cand].sub in d.subs
    && var g := d.subs[d.cands[t.cand].sub].config;
       t == Task(t.cand, d.cands[t.cand].sub, d.cands[t.cand].cycleNo, g.interval, g.retry, g.maxCycles)
  }

  ghost predicate TakesUp(d: Db, e: Db, chosen: set<CandId>, tasks: seq<Task>, now: Time) {
    && e == d.(cycles := e.cycles, allocs := e.allocs, cands := e.cands)
    && ClosesCycles(d, e, now) && ClaimsCandidates(d, e, chosen, now)
    && (forall c :: c in chosen ==> MayRun(d, c, now))
    && (forall t :: t in tasks ==> t.cand in chosen && IsTaskOf(d, t))
    && (forall c :: c in chosen && !IsOver(d.cands[c], d.subs[d.cands[c].sub].config, now) ==> exists t :: t in tasks && t.cand == c)
  }

  lemma ReleaseCloses(db: Db, now: Time)
    ensures ClosesCycles(db, ReleaseElapsed(db, now), now)
  {}

  lemma ChosenAreClaimed(db: Db, chosen: set<CandId>, now: Time)
    ensures ClaimsCandidates(db, Claimed(db, now, chosen), chosen, now)
  {}

  lemma TasksAreTaken(db: Db, chosen: set<CandId>, tasks: seq<Task>, now: Time)
    requires ClaimedTasks(db, now, chosen, tasks) && forall c :: c in chosen ==> c in db.cands && db.cands[c].sub in db.subs
    ensures forall t :: t in tasks ==> t.cand in chosen && IsTaskOf(db, t)
    ensures forall c :: c in chosen && !IsOver(db.cands[c], db.subs[db.cands[c].sub].config, now) ==> exists t :: t in tasks && t.cand == c
  {
    forall t | t in tasks ensures t.cand in chosen && IsTaskOf(db, t) {
      var i :| 0 <= i < |tasks| && tasks[i] == t;
    }
    forall c | c in chosen && !IsOver(db.cands[c], db.subs[db.cands[c].sub].config, now) ensures exists t :: t in tasks && t.cand == c {
      var i :| 0 <= i < |tasks| && tasks[i].cand == c;
      assert tasks[i] in tasks;
    }
  }

  lemma ClaimTakesUp(db: Db, chosen: set<CandId>, tasks: seq<Task>, now: Time)
    requires (forall c :: c in chosen ==> Due(db, c, now)) && ClaimedTasks(db, now, chosen, tasks)
    ensures TakesUp(db, Claim(db, now, chosen), chosen, tasks, now)
  {
    hide ReleaseElapsed, Claimed, ClaimedTasks, IsTaskOf, MayRun, Due, ClosesCycles, ClaimsCandidates, IsOver;
    forall c | c in chosen ensures MayRun(db, c, now) { DueExactly(db, c, now); }
    ReleaseCloses(db, now);
    ReleaseIsQuiet(db, now);
    ChosenAreClaimed(ReleaseElapsed(db, now), chosen, now);
    SameClaims(db, ReleaseElapsed(db, now), Claim(db, now, chosen), chosen, now);
    MayRunIsThere(db, chosen, now);
    TasksAreTaken(db, chosen, tasks, now);
    ClaimIsQuiet(ReleaseElapsed(db, now), now, chosen);
    SameCloses(db, ReleaseElapsed(db, now), Claim(db, now, chosen), now);
  }

  lemma SameCloses(d: Db, r: Db, e: Db, now: Time)
    requires ClosesCycles(d, r, now) && e.cycles == r.cycles && e.allocs == r.allocs
    ensures ClosesCycles(d, e, now)
  {}

  lemma MayRunIsThere(db: Db, chosen: set<CandId>, now: Time)
    requires forall c :: c in chosen ==> MayRun(db, c, now)
    ensures forall c :: c in chosen ==> c in db.cands && db.cands[c].sub in db.subs
  {}

  lemma ReleaseIsQuiet(db: Db, now: Time)
    ensures var e := ReleaseElapsed(db, now); e == db.(cycles := e.cycles, allocs := e.allocs)
  {}

  lemma ClaimIsQuiet(db: Db, now: Time, chosen: set<CandId>)
    ensures var e := Claimed(db, now, chosen); e == db.(cands := e.cands)
  {}

  lemma SameClaims(d: Db, r: Db, e: Db, chosen: set<CandId>, now: Time)
    requires r == d.(cycles := r.cycles, allocs := r.allocs) && ClaimsCandidates(r, e, chosen, now)
    ensures ClaimsCandidates(d, e, chosen, now)
  {}

  /** A claim step, in every reachable state, takes up what it should, or does nothing. */
  lemma ClaimEnds(s: Sys, chosen: set<CandId>, tasks: seq<Task>)
    requires Reachable(s) && s.flight.Claiming?
    ensures var u := Step(s, ClaimDue(chosen, tasks));
      u == s || (TakesUp(s.db, u.db, chosen, tasks, s.flight.runNow) && u.flight == Renewing(tasks, s.flight.runNow))
  {
    hide Reachable, Run, Advance, Reconcile, Evaluate, Act, Deliver, JudgeAnswer, Due, ClaimedTasks, Claim, TakesUp;
    if (forall c :: c in chosen ==> Due(s.db, c, s.flight.runNow)) && ClaimedTasks(s.db, s.flight.runNow, chosen, tasks) {
      ClaimTakesUp(s.db, chosen, tasks, s.flight.runNow);
    }
  }
}
