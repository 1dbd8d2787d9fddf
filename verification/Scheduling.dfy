/** What the renewal scheduler's transactions do to the tables. */
module Scheduling {
  import opened Wrappers
  import opened Rows
  import opened Planning

  datatype Task = Task(
    cand: CandId, sub: SubId, prev: nat, interval: int, retry: int, maxCycles: Option<nat>)

  function MakeTask(c: CandId, sub: SubId, prev: nat, g: Config): Task {
    Task(c, sub, prev, g.interval, g.retry, g.maxCycles)
  }

  /** The cycle's hold has run out and its reservation has not been returned yet. */
  predicate Elapsed(y: Cycle, now: Time) {
    y.dueAt.Some? && y.dueAt.value <= now && y.releasedAt.None?
  }

  function ReleasedCycle(y: Cycle, now: Time): Cycle {
    y.(releasedAt := Some(now), endedAt := Some(now),
       state := if y.state == CycleRenewal then CycleElapsed else y.state)
  }

  /** Every elapsed cycle is closed and its reservation returned. */
  function ReleaseElapsed(db: Db, now: Time): Db {
    db.(cycles := map k | k in db.cycles ::
          if Elapsed(db.cycles[k], now) then ReleasedCycle(db.cycles[k], now) else db.cycles[k],
        allocs := map k | k in db.allocs ::
          if k in db.cycles && Elapsed(db.cycles[k], now) then db.allocs[k].(active := false) else db.allocs[k])
  }

  predicate Due(db: Db, c: CandId, now: Time) {
    && c in db.cands
    && db.cands[c].sub in db.subs
    && db.subs[db.cands[c].sub].enabled
    && db.cands[c].live
    && Runnable(db.cands[c].state)
    && (db.cands[c].nextRunAt.None? || db.cands[c].nextRunAt.value <= now)
  }

  function Halted(a: Candidate): Candidate { a.(state := Stopped, nextRunAt := None) }

  predicate Finished(a: Candidate, g: Config, now: Time) {
    || (a.watchUntil.Some? && a.watchUntil.value <= now)
    || (g.maxCycles.Some? && a.cycleNo >= g.maxCycles.value)
  }

  /** The chosen candidates are claimed, or stopped when they have nothing left to do. */
  function Claimed(db: Db, now: Time, chosen: set<CandId>): Db {
    db.(cands := map c | c in db.cands ::
          var a := db.cands[c];
          if c in chosen && a.sub in db.subs then
            if Finished(a, db.subs[a.sub].config, now) then Halted(a) else a.(state := RenewalClaimed)
          else a)
  }

  /** One claim transaction: elapsed reservations are returned first, then the chosen candidates are claimed. */
  function Claim(db: Db, now: Time, chosen: set<CandId>): Db {
    Claimed(ReleaseElapsed(db, now), now, chosen)
  }

  predicate Claims(db: Db, now: Time, chosen: set<CandId>, t: Task) {
    && t.cand in chosen && t.cand in db.cands && db.cands[t.cand].sub in db.subs
    && var a := db.cands[t.cand];
       !Finished(a, db.subs[a.sub].config, now) && t == MakeTask(t.cand, a.sub, a.cycleNo, db.subs[a.sub].config)
  }

  /** The claimed tasks: one for each chosen candidate that is not stopped, in some order. */
  predicate ClaimedTasks(db: Db, now: Time, chosen: set<CandId>, tasks: seq<Task>) {
    && (forall i :: 0 <= i < |tasks| ==> Claims(db, now, chosen, tasks[i]))
    && (forall i, j :: 0 <= i < j < |tasks| ==> tasks[i].cand != tasks[j].cand)
    && (forall c :: c in chosen && c in db.cands && db.cands[c].sub in db.subs
          && !Finished(db.cands[c], db.subs[db.cands[c].sub].config, now)
          ==> exists i :: 0 <= i < |tasks| && tasks[i].cand == c)
  }

  datatype ScheduleOutcome = Scheduled | NotCurrent | WrongCycle

  /** A confirmed hold fixes the due time of its cycle and, unless stopped, of the next cycle. */
  function Held(g: Graph, t: Task, no: nat, heldAt: Time): Graph {
    var due := Some(heldAt + t.interval);
    var y := g.cycle.(startedAt := heldAt, dueAt := due);
    if g.cand.state.Stopped? then g.(cycle := y.(state := CycleHeld))
    else if t.maxCycles.Some? && no >= t.maxCycles.value then g.(cycle := y.(state := CycleHeld), cand := Halted(g.cand))
    else g.(cycle := y.(state := CycleRenewal), cand := g.cand.(state := RenewalWaiting, nextRunAt := due))
  }

  function ScheduleAfterHold(db: Db, t: Task, no: nat, heldAt: Time): (Db, ScheduleOutcome) {
    var k := Key(t.cand, no);
    if no != t.prev + 1 then (db, WrongCycle)
    else if !GraphExists(db, k) || db.cands[t.cand].cycleNo != no then (db, NotCurrent)
    else (Write(db, k, Held(Read(db, k), t, no, heldAt)), Scheduled)
  }

  function Waiting(a: Candidate, t: Task, budget: bool, now: Time): Candidate {
    var due := now + t.retry;
    if a.watchUntil.Some? && due >= a.watchUntil.value then Halted(a)
    else a.(state := if budget then WaitingBudget else WaitingAvailability, nextRunAt := Some(due))
  }

  function ScheduleWait(db: Db, t: Task, budget: bool, now: Time): Db {
    if t.cand !in db.cands || db.cands[t.cand].cycleNo != t.prev then db
    else Put(db, t.cand, Waiting(db.cands[t.cand], t, budget, now))
  }

  function Blocked(a: Candidate): Candidate { a.(state := NeedsAttention, nextRunAt := None) }

  function BlockedGraph(g: Graph): Graph { g.(cand := Blocked(g.cand), cycle := g.cycle.(state := CycleAttention)) }

  /** The candidate is blocked; its cycle is blocked too unless the candidate was only claimed. */
  function MarkNeedsAttention(db: Db, t: Task): Db {
    if t.cand !in db.cands then db
    else
      var a := db.cands[t.cand];
      var k := Key(t.cand, a.cycleNo);
      if GraphExists(db, k) && !a.state.RenewalClaimed? then Write(db, k, BlockedGraph(Read(db, k)))
      else Put(db, t.cand, Blocked(a))
  }

  function StopTask(db: Db, t: Task): Db {
    if t.cand in db.cands then Put(db, t.cand, Halted(db.cands[t.cand])) else db
  }

  function ReleaseClaim(db: Db, t: Task): Db {
    if t.cand in db.cands && db.cands[t.cand].state == RenewalClaimed && db.cands[t.cand].cycleNo == t.prev
    then Put(db, t.cand, db.cands[t.cand].(state := Queued, nextRunAt := None))
    else db
  }

  function RecoverClaims(db: Db): Db {
    db.(cands := map c | c in db.cands ::
          if db.cands[c].state == RenewalClaimed then db.cands[c].(state := Queued, nextRunAt := None) else db.cands[c])
  }
}
