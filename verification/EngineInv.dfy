/** The invariant of the whole engine: the tables, where the booking thread stands, and the log of writes. */
module EngineInv {
  import opened Wrappers
  import opened Rows
  import opened Planning
  import opened Scheduling
  import opened Checkout
  import opened Environment
  import opened Mailbox
  import opened Engine
  import opened Invariants
  import opened Preservation

  // ----- what a queue entry knows about the tables

  /** A claimed task: its candidate is at rest at the cycle the task was made for, and may plan one more. */
  ghost predicate TaskReady(db: Db, t: Task) {
    && t.cand in db.cands && db.cands[t.cand].sub in db.subs && db.cands[t.cand].cycleNo == t.prev
    && t == MakeTask(t.cand, db.cands[t.cand].sub, t.prev, Settings(db, t.cand))
    && AtRest(db, t.cand)
    && (t.maxCycles.Some? ==> t.prev < t.maxCycles.value)
  }

  ghost predicate TasksReady(db: Db, ts: seq<Task>) {
    && (forall i :: 0 <= i < |ts| ==> TaskReady(db, ts[i]))
    && (forall i, j :: 0 <= i < j < |ts| ==> ts[i].cand != ts[j].cand)
  }

  /** A checkout of the candidate's current cycle that has not been written, or may be written again. */
  ghost predicate ResumeReady(db: Db, k: Key) {
    && HasTask(db, k) && k in db.intents && db.cands[k.cand].cycleNo == k.no
    && (db.intents[k].state.Pending? || db.intents[k].state.RetryAllowed?)
  }

  ghost predicate QueueReady(db: Db, ks: seq<Key>) {
    && (forall i :: 0 <= i < |ks| ==> ResumeReady(db, ks[i]))
    && (forall i, j :: 0 <= i < j < |ks| ==> ks[i].cand != ks[j].cand)
  }

  ghost predicate RowReady(db: Db, r: Incomplete) {
    && r.key in db.intents && r.key in db.cycles && HasTask(db, r.key)
    && Unfinished(db.intents[r.key].state) && r.started == db.intents[r.key].writeStartedAt.Some?
  }

  ghost predicate RowsReady(db: Db, rs: seq<Incomplete>) {
    && (forall i :: 0 <= i < |rs| ==> RowReady(db, rs[i]))
    && (forall i, j :: 0 <= i < j < |rs| ==> rs[i].key.cand != rs[j].key.cand)
  }

  ghost predicate RepairReady(db: Db, k: Key) { Unscheduled(db, k) && HasTask(db, k) }

  ghost predicate RepairsReady(db: Db, ks: seq<Key>) {
    && (forall i :: 0 <= i < |ks| ==> RepairReady(db, ks[i]))
    && (forall i, j :: 0 <= i < j < |ks| ==> ks[i].cand != ks[j].cand)
  }

  /** What the loop still has to do concerns other candidates than `c`. */
  ghost predicate OriginReady(s: Sys, o: Origin, c: CandId) {
    match o
    case FromRenewal(rest, runNow) =>
      runNow <= s.mark && TasksReady(s.db, rest) && (forall i :: 0 <= i < |rest| ==> rest[i].cand != c)
    case FromResume(keys, runNow) =>
      runNow <= s.mark && QueueReady(s.db, keys) && (forall i :: 0 <= i < |keys| ==> keys[i].cand != c)
  }

  predicate Payable(i: Intent, o: Order) { OrderFits(i, o) && HandoffComplete(o) }

  /** A judged answer and the stage it is recorded with. */
  predicate Consistent(i: Intent, stage: Stage, r: CheckoutResult) {
    && !stage.WriteStarted? && !stage.Progress?
    && (r.Accepted? ==> stage.StageValidated? && Payable(i, r.order))
    && (r.Refused? ==> !stage.StageValidated? && (stage.StageRejected? <==> r.state.CheckoutRejected?))
  }

  /** The last stage is committed, so the intent's state tells the result. */
  predicate Committed(i: Intent, r: CheckoutResult) {
    match r
    case Accepted(o) => i.state.Validated? && Payable(i, o)
    case Refused(state, _) => if state.CheckoutRejected? then i.state.Rejected? else !Settled(i.state)
  }

  predicate Open(s: IntentState) { s.WriteOpen? || s.RetryAllowed? }

  ghost predicate PhaseReady(i: Intent, p: Phase) {
    match p
    case BeforeWrite => i.state.Pending? || i.state.RetryAllowed?
    case WriteRecorded => Open(i.state)
    case AtProvider => Open(i.state)
    case Judged(stage, result) => Open(i.state) && Consistent(i, stage, result)
    case Settling(result) => Committed(i, result)
  }

  ghost predicate JobReady(s: Sys, j: Job) {
    && GraphExists(s.db, j.key) && HasTask(s.db, j.key)
    && j.task == TaskOf(s.db, j.key) && j.request == LoadRequest(s.db, j.key) && j.request.Valid()
    && s.db.cands[j.key.cand].cycleNo == j.key.no && s.db.allocs[j.key].active
    && j.now <= s.mark && OriginReady(s, j.origin, j.key.cand)
    && PhaseReady(s.db.intents[j.key], j.phase)
    && (j.phase.WriteRecorded? && Wrote(j.key) in s.log ==> AuthorisedIn(s.log, j.key))
    // only a live worker gets beyond the start, and what it settles is no longer open to a retry
    && (!s.live ==> j.phase.BeforeWrite? || j.phase.Settling?)
    && (s.live && j.phase.Settling? ==> !s.db.intents[j.key].state.RetryAllowed?)
  }

  ghost predicate VerdictReady(db: Db, t: Task, v: Verdict) {
    match v
    case Hold(no, heldAt) => Schedulable(db, t, no, heldAt)
    case WaitFor(_) => t.cand in db.cands && (db.cands[t.cand].cycleNo == t.prev ==> AtRest(db, t.cand))
    case Attention => NoOpenHold(db, t.cand)
    case _ => true
  }

  /** Recovery found the order of interrupted checkout `k`; the rows left to reconcile are of other candidates. */
  ghost predicate FinalReady(db: Db, k: Key, o: Order, rows: seq<Incomplete>) {
    && k in db.intents && db.intents[k].state.Validated? && Payable(db.intents[k], o) && HasTask(db, k)
    && RowsReady(db, rows) && (forall i :: 0 <= i < |rows| ==> rows[i].key.cand != k.cand)
  }

  ghost predicate FinalRepairReady(db: Db, k: Key, heldAt: Time, rows: seq<Incomplete>) {
    && RepairReady(db, k) && db.orders[k].heldAt == heldAt
    && RowsReady(db, rows) && (forall i :: 0 <= i < |rows| ==> rows[i].key.cand != k.cand)
  }

  ghost predicate FlightInv(s: Sys) {
    match s.flight
    case Down => true
    case Idle => true
    case Rescheduling(keys) => RepairsReady(s.db, keys)
    case Reconciling(rows) => RowsReady(s.db, rows)
    case Finalizing(k, o, rows) => FinalReady(s.db, k, o, rows)
    case FinalScheduling(k, heldAt, rows) => FinalRepairReady(s.db, k, heldAt, rows)
    case Resuming(queue, runNow) => runNow <= s.mark && QueueReady(s.db, queue)
    case Claiming(runNow) => runNow <= s.mark
    case Renewing(tasks, runNow) => runNow <= s.mark && TasksReady(s.db, tasks)
    case Evaluating(t, rest, runNow, now, _) =>
      runNow <= s.mark && now == s.mark && TaskReady(s.db, t) && OriginReady(s, FromRenewal(rest, runNow), t.cand)
    case Working(job) => JobReady(s, job)
    case Dispatching(t, origin, v) => t.cand in s.db.cands && OriginReady(s, origin, t.cand) && VerdictReady(s.db, t, v)
  }

  /** No cycle is created or released later than the mark. */
  ghost predicate Dated(cycles: map<Key, Cycle>, mark: Time) {
    forall k :: k in cycles ==>
      cycles[k].createdAt <= mark && (cycles[k].releasedAt.Some? ==> cycles[k].releasedAt.value <= mark)
  }

  predicate SameTimes(y: Cycle, z: Cycle) { z.createdAt == y.createdAt && z.releasedAt == y.releasedAt }

  /** Cycles were created and released at times the booking thread has already read. */
  ghost predicate TimeInv(s: Sys) {
    s.mark <= s.clock && Dated(s.db.cycles, s.mark)
  }

  // ----- the log

  /** A retry was authorised after a first write of the intent had been opened. */
  ghost predicate AuthorisedIn(log: seq<LogEntry>, k: Key) {
    exists i, m :: 0 <= i < m < |log| && log[i] == Opened(k) && log[m] == Authorised(k)
  }

  ghost predicate LogMarks(intents: map<Key, Intent>, log: seq<LogEntry>) {
    && (forall k :: Wrote(k) in log ==> k in intents && intents[k].writeStartedAt.Some?)
    && (forall k :: k in intents && intents[k].writeStartedAt.Some? ==> Opened(k) in log)
    && (forall k :: k in intents && intents[k].state.RetryAllowed? ==> AuthorisedIn(log, k))
  }

  /** A repeated write comes after a retry was authorised. */
  ghost predicate WritesAuthorised(log: seq<LogEntry>) {
    forall i, j, k :: 0 <= i < j < |log| && log[i] == Wrote(k) && log[j] == Wrote(k) ==> AuthorisedIn(log[..j], k)
  }

  ghost predicate Side(s: Sys) {
    TimeInv(s) && LogMarks(s.db.intents, s.log) && WritesAuthorised(s.log) && FlightInv(s)
  }

  ghost predicate SysInv(s: Sys) { Inv(s.db) && Side(s) }

  // ----- frames

  /** The candidate and all its checkout rows are as before, up to the candidate's state. */
  ghost predicate Untouched(d: Db, e: Db, c: CandId) {
    && (c in d.cands ==>
          && c in e.cands && SameIdentity(d.cands[c], e.cands[c])
          && (d.cands[c].sub in d.subs ==> d.cands[c].sub in e.subs && Settings(e, c) == Settings(d, c)))
    && (forall k: Key :: k.cand == c ==> SameRows(d, e, k))
  }

  ghost predicate SameRows(d: Db, e: Db, k: Key) {
    && (k in d.intents <==> k in e.intents) && (k in d.cycles <==> k in e.cycles)
    && (k in d.orders <==> k in e.orders) && (k in d.allocs <==> k in e.allocs)
    && (k in d.intents ==> e.intents[k] == d.intents[k]) && (k in d.cycles ==> e.cycles[k] == d.cycles[k])
    && (k in d.orders ==> e.orders[k] == d.orders[k]) && (k in d.allocs ==> e.allocs[k] == d.allocs[k])
  }

  lemma TaskUntouched(d: Db, e: Db, t: Task)
    requires TaskReady(d, t) && Untouched(d, e, t.cand)
    ensures TaskReady(e, t)
  {}

  lemma TasksUntouched(d: Db, e: Db, ts: seq<Task>)
    requires TasksReady(d, ts) && forall i :: 0 <= i < |ts| ==> Untouched(d, e, ts[i].cand)
    ensures TasksReady(e, ts)
  {}

  lemma QueueUntouched(d: Db, e: Db, ks: seq<Key>)
    requires QueueReady(d, ks) && forall i :: 0 <= i < |ks| ==> Untouched(d, e, ks[i].cand)
    ensures QueueReady(e, ks)
  {}

  lemma RepairsUntouched(d: Db, e: Db, ks: seq<Key>)
    requires RepairsReady(d, ks) && forall i :: 0 <= i < |ks| ==> Untouched(d, e, ks[i].cand)
    ensures RepairsReady(e, ks)
  {}

  lemma OriginUntouched(s: Sys, u: Sys, o: Origin, c: CandId)
    requires OriginReady(s, o, c) && s.mark <= u.mark
    requires forall b :: b in s.db.cands && b != c ==> Untouched(s.db, u.db, b)
    ensures OriginReady(u, o, c)
  {}

  /** Intents keep their write marks, new ones start unwritten, and no retry is newly allowed. */
  ghost predicate MarksKept(d: map<Key, Intent>, e: map<Key, Intent>) {
    && (forall k :: k in d ==> k in e && e[k].writeStartedAt == d[k].writeStartedAt
                               && (e[k].state.RetryAllowed? ==> d[k].state.RetryAllowed?))
    && (forall k :: k in e && k !in d ==> e[k].writeStartedAt.None? && !e[k].state.RetryAllowed?)
  }

  lemma MarksLog(d: map<Key, Intent>, e: map<Key, Intent>, log: seq<LogEntry>)
    requires LogMarks(d, log) && MarksKept(d, e)
    ensures LogMarks(e, log)
  {}

  lemma GrowLog(log: seq<LogEntry>, x: LogEntry, k: Key)
    requires AuthorisedIn(log, k)
    ensures AuthorisedIn(log + [x], k)
  {
    var i, m :| 0 <= i < m < |log| && log[i] == Opened(k) && log[m] == Authorised(k);
    assert (log + [x])[i] == Opened(k) && (log + [x])[m] == Authorised(k);
  }
}
