/** What recovery makes of an interrupted checkout, in terms of the rows and of the provider's answer alone. */
module Recoveries {
  import opened Wrappers
  import opened Rows
  import opened Planning
  import opened Scheduling
  import opened Checkout
  import opened Acceptance
  import opened Environment
  import opened Mailbox
  import opened Engine
  import opened Invariants
  import opened EngineInv
  import opened EngineSteps
  import opened EngineWork
  import opened Guarantees
  import opened Writes
  import opened Settlements

  /** The checkout and its candidate end up in these states, and nothing else changes. */
  predicate TurnsTo(d: Db, e: Db, k: Key, i: IntentState, y: CycleState, a: Tracking) {
    && GraphExists(d, k)
    && e == d.(cands := d.cands[k.cand := d.cands[k.cand].(state := a)], cycles := d.cycles[k := d.cycles[k].(state := y)],
               intents := d.intents[k := d.intents[k].(state := i)])
  }

  /** It may be written, for the first time or again; whoever has stopped the candidate is not overruled. */
  predicate Reopens(d: Db, e: Db, k: Key) {
    && GraphExists(d, k)
    && TurnsTo(d, e, k, if d.intents[k].writeStartedAt.None? then Pending else RetryAllowed, CycleSubmitting,
             if d.cands[k.cand].state in {Stopped, Paused} then d.cands[k.cand].state else Submitting)
  }

  /** What the provider knows about the checkout is the order that was asked for. */
  ghost predicate IsThere(d: Db, k: Key, host: string, l: Lookup) {
    k in d.intents && k.cand in d.cands && l.Found? && Meets(LoadRequest(d, k), l.o, host)
  }

  predicate MayWriteAgain(i: Intent, l: Lookup) { i.writeStartedAt.None? || l.NotFoundThere? }

  lemma ReopenLeaves(db: Db, k: Key)
    requires GraphExists(db, k)
    ensures Reopens(db, ApplyRecovery(db, k, AllowRetry), k)
  {}

  lemma FoundLeaves(db: Db, k: Key, o: Order)
    requires GraphExists(db, k)
    ensures TurnsTo(db, ApplyRecovery(db, k, ConfirmFound(o)), k, Validated, CycleSubmitting, Submitting)
  {}

  lemma BlockLeaves(db: Db, k: Key, error: ErrorCode)
    requires GraphExists(db, k)
    ensures TurnsTo(db, ApplyRecovery(db, k, Block(error)), k, Unknown, CycleAttention, NeedsAttention)
  {}

  /** The decision about one row: written again, found, or left to its user. */
  lemma DecidedExactly(db: Db, host: string, k: Key, l: Lookup)
    requires k in db.intents && k.cand in db.cands && db.intents[k].expected.currency == db.intents[k].reserved.currency
    ensures var d := Decide(db, host, k, db.intents[k].writeStartedAt.Some?, l);
      && (d.AllowRetry? <==> MayWriteAgain(db.intents[k], l))
      && (d.ConfirmFound? <==> db.intents[k].writeStartedAt.Some? && IsThere(db, k, host, l))
      && (d.ConfirmFound? ==> IsOrderOf(d.order, l.o))
  {
    hide Validate, Meets, IsOrderOf;
    if l.Found? { AcceptedExactly(LoadRequest(db, k), l.o, host); }
  }

  /** How one row is left. */
  ghost predicate Recovers(d: Db, e: Db, k: Key, host: string, l: Lookup) {
    && GraphExists(d, k)
    && if MayWriteAgain(d.intents[k], l) then Reopens(d, e, k)
       else if IsThere(d, k, host, l) then TurnsTo(d, e, k, Validated, CycleSubmitting, Submitting)
       else TurnsTo(d, e, k, Unknown, CycleAttention, NeedsAttention)
  }

  lemma LookedSteps(s: Sys, rows: seq<Engine.Incomplete>, l: Lookup)
    requires s.flight == Reconciling(rows) && rows != []
    ensures Step(s, Looked(l)) == Reconcile(s, rows, l)
  {
    hide Advance, Reconcile, Evaluate, ClaimRun, Act, Deliver, JudgeAnswer;
  }

  /** The rows after a decision, in every reachable state; an order that was found goes on to be recorded. */
  lemma DecisionLeaves(s: Sys, rows: seq<Engine.Incomplete>, l: Lookup)
    requires Reachable(s) && s.flight == Reconciling(rows) && rows != []
    ensures var k := rows[0].key; var u := Step(s, Looked(l));
      && Recovers(s.db, u.db, k, s.paymentHost, l)
      && if s.db.intents[k].writeStartedAt.Some? && IsThere(s.db, k, s.paymentHost, l)
         then u.flight.Finalizing? && u.flight.key == k && u.flight.rows == rows[1..] && IsOrderOf(u.flight.order, l.o)
         else u.flight == Reconciling(rows[1..])
  {
    hide Reachable, Step, Run, Reconcile, Decide, ApplyRecovery, Reopens, TurnsTo, IsOrderOf, IsThere;
    var k := rows[0].key;
    ReachableRecovery(s);
    ReachableRow(s, k);
    LookedSteps(s, rows, l);
    ReconcileShape(s, rows, l);
    DecidedExactly(s.db, s.paymentHost, k, l);
    var d := Decide(s.db, s.paymentHost, k, rows[0].started, l);
    match d
    case AllowRetry => ReopenLeaves(s.db, k);
    case ConfirmFound(o) => FoundLeaves(s.db, k, o);
    case Block(error) => BlockLeaves(s.db, k, error);
  }

  // ----- an order that was found

  lemma FinalSteps(s: Sys, m: MsgId)
    ensures s.flight.Finalizing? && m !in s.db.msgs ==> Step(s, Proceed(m)) == Finalize(s, s.flight.key, s.flight.order, s.flight.rows, m)
    ensures s.flight.FinalScheduling? ==> Step(s, Proceed(m)) == Reschedule(s, s.flight.key, s.flight.heldAt, Reconciling(s.flight.rows))
  {
    hide Work, Reconcile, Dispatch, Finalize, Reschedule, Evaluate, ClaimRun, Act, Deliver, JudgeAnswer, Resume;
  }

  /** What is known of a checkout whose order was found: it can be recorded, and its hold scheduled. */
  lemma FinalKnows(s: Sys, m: MsgId)
    requires Reachable(s) && s.flight.Finalizing? && m !in s.db.msgs
    ensures var k := s.flight.key;
      && GraphExists(s.db, k) && s.db.cands[k.cand].sub in s.db.subs && s.db.cands[k.cand].cycleNo == k.no && k.no >= 1
      && k !in s.db.orders && RecordOrder(s.db, k, s.flight.order, s.clock, m).1 == Recorded(m)
  {
    hide Reachable, Step, Run, RecordOrder, Tables, AllRows;
    var k := s.flight.key;
    ReachableHolds(s);
    ReachableTables(s);
    ReachableRow(s, k);
    AcceptedReady(s.db, k, s.flight.order, s.clock, m, s.mark);
    assert OrderAt(s.db, k).None?;
  }

  lemma FinalizedAs(s: Sys, m: MsgId)
    requires Reachable(s) && s.flight.Finalizing? && m !in s.db.msgs
    ensures var u := Finalize(s, s.flight.key, s.flight.order, s.flight.rows, m);
      && u.db == RecordOrder(s.db, s.flight.key, s.flight.order, s.clock, m).0
      && u.flight == FinalScheduling(s.flight.key, s.flight.order.heldAt, s.flight.rows)
  {
    hide Reachable, Step, Run, RecordOrder;
    FinalKnows(s, m);
  }

  lemma RescheduledAs(s: Sys, d: Db, k: Key, o: Order, at: Time, m: MsgId, next: Flight)
    requires GraphExists(d, k) && d.cands[k.cand].sub in d.subs && d.cands[k.cand].cycleNo == k.no && k.no >= 1 && m !in d.msgs
    requires k !in d.orders && RecordOrder(d, k, o, at, m).1 == Recorded(m) && s.db == RecordOrder(d, k, o, at, m).0
    ensures var u := Reschedule(s, k, o.heldAt, next);
      Buys(d, u.db, k, o, Settings(d, k.cand), at, m) && u.flight == next
  {
    hide RecordOrder, Buys, Held;
    RecordedRows(d, k, o, at, m);
    RecordAndHold(d, k, o, Settings(d, k.cand), TaskOf(s.db, k), at, m);
  }

  /** The rows after an order that was found has been recorded and scheduled, in every reachable state. */
  lemma FoundEnds(s: Sys, m: MsgId, n: MsgId)
    requires Reachable(s) && s.flight.Finalizing? && m !in s.db.msgs
    ensures var k := s.flight.key; var u := Step(Step(s, Proceed(m)), Proceed(n));
      && k.cand in s.db.cands && s.db.cands[k.cand].sub in s.db.subs
      && Buys(s.db, u.db, k, s.flight.order, Settings(s.db, k.cand), s.clock, m) && u.flight == Reconciling(s.flight.rows)
  {
    hide Reachable, Step, Run, RecordOrder, Buys, Finalize, Reschedule;
    FinalKnows(s, m);
    FinalizedAs(s, m);
    FinalSteps(s, m);
    var v := Finalize(s, s.flight.key, s.flight.order, s.flight.rows, m);
    FinalSteps(v, n);
    RescheduledAs(v, s.db, s.flight.key, s.flight.order, s.clock, m, Reconciling(s.flight.rows));
  }

  // ----- one row from beginning to end

  /** An order that was found is recorded and scheduled; otherwise the decision about the row is all. */
  ghost predicate Recovered(d: Db, e: Db, k: Key, host: string, l: Lookup, now: Time) {
    && GraphExists(d, k) && d.cands[k.cand].sub in d.subs
    && if d.intents[k].writeStartedAt.Some? && IsThere(d, k, host, l)
       then exists v, o, m :: TurnsTo(d, v, k, Validated, CycleSubmitting, Submitting) && IsOrderOf(o, l.o)
              && Buys(v, e, k, o, Settings(d, k.cand), now, m)
       else Recovers(d, e, k, host, l)
  }

  lemma FoundIsMoved(d: Db, e: Db, k: Key, host: string, l: Lookup)
    requires Recovers(d, e, k, host, l)
    ensures GraphExists(d, k)
    ensures d.intents[k].writeStartedAt.Some? && IsThere(d, k, host, l) ==>
      && TurnsTo(d, e, k, Validated, CycleSubmitting, Submitting) && e.subs == d.subs
      && k.cand in e.cands && e.cands[k.cand].sub == d.cands[k.cand].sub
      && (d.cands[k.cand].sub in d.subs ==> Settings(e, k.cand) == Settings(d, k.cand))
  {
    hide Meets;
  }

  lemma FoundIsRecovered(d: Db, v: Db, e: Db, k: Key, host: string, l: Lookup, o: Order, g: Config, now: Time)
    requires GraphExists(d, k) && d.cands[k.cand].sub in d.subs && g == Settings(d, k.cand)
    requires d.intents[k].writeStartedAt.Some? && IsThere(d, k, host, l)
    requires TurnsTo(d, v, k, Validated, CycleSubmitting, Submitting) && IsOrderOf(o, l.o) && exists m :: Buys(v, e, k, o, g, now, m)
    ensures Recovered(d, e, k, host, l, now)
  {
    hide TurnsTo, IsOrderOf, Buys, IsThere;
  }

  lemma DecidedIsRecovered(d: Db, e: Db, k: Key, host: string, l: Lookup, now: Time)
    requires Recovers(d, e, k, host, l) && d.cands[k.cand].sub in d.subs
    requires !(d.intents[k].writeStartedAt.Some? && IsThere(d, k, host, l))
    ensures Recovered(d, e, k, host, l, now)
  {
    hide IsThere, TurnsTo, Reopens;
  }
}
