/** What the result of a checkout leaves behind, in terms of the rows alone. */
module Settlements {
  import opened Wrappers
  import opened Rows
  import opened Planning
  import opened Scheduling
  import opened Checkout
  import opened Acceptance
  import opened Environment
  import opened Mailbox
  import opened Engine
  import opened Invariants
  import opened Preservation
  import opened EngineInv
  import opened EngineProof
  import opened EngineSteps
  import opened EnginePlan
  import opened EngineWork
  import opened Guarantees

  // ----- a confirmed order

  /** The last cycle the subscription allows for a session. */
  predicate IsLast(g: Config, no: nat) { g.maxCycles.Some? && g.maxCycles.value <= no }

  /** The candidate once its hold is scheduled: due again after the interval, unless it is stopped or was in its last cycle. */
  predicate HoldsOn(a: Candidate, b: Candidate, last: bool, due: Time) {
    if a.state.Stopped? then b == a
    else if last then b == a.(state := Stopped, nextRunAt := None)
    else b == a.(state := RenewalWaiting, nextRunAt := Some(due))
  }

  /** The cycle is held from then on, and is to be renewed after the interval. */
  predicate IsHeld(y: Cycle, z: Cycle, heldAt: Time, due: Time, renews: bool) {
    z == y.(state := if renews then CycleRenewal else CycleHeld, startedAt := heldAt, dueAt := Some(due))
  }

  /** The order is there with a message to its buyer; what it costs stays reserved, and its hold is scheduled. */
  ghost predicate Buys(d: Db, e: Db, k: Key, o: Order, g: Config, at: Time, m: MsgId) {
    && GraphExists(d, k) && d.cands[k.cand].buyer in d.buyers && GraphExists(e, k)
    && e == d.(cands := d.cands[k.cand := e.cands[k.cand]], cycles := d.cycles[k := e.cycles[k]],
               intents := d.intents[k := d.intents[k].(state := Confirmed)],
               allocs := d.allocs[k := d.allocs[k].(reserved := o.total.minor)],
               orders := d.orders[k := o],
               msgs := d.msgs[m := Message(Payment(k), d.cands[k.cand].buyer, d.buyers[d.cands[k.cand].buyer].chat,
                                           MsgPending, 0, at, at, None)])
    && HoldsOn(d.cands[k.cand], e.cands[k.cand], IsLast(g, k.no), o.heldAt + g.interval)
    && IsHeld(d.cycles[k], e.cycles[k], o.heldAt, o.heldAt + g.interval, !d.cands[k.cand].state.Stopped? && !IsLast(g, k.no))
  }

  /** The order is for the seats that were planned, and at an amount that was. */
  predicate IsPlanned(i: Intent, o: Order) { o.seats == i.seats && FitsAmounts(o.total, i.expected, i.reserved, i.unlimited) }

  /** There is a link, and time to follow it. */
  ghost predicate IsPayable(o: Order) { o.heldAt < o.expiresAt && !AllBlank(UrlText(o.url)) }

  /** The order is the one that is there. */
  predicate IsKnown(a: Order, o: Order) {
    o.providerId == a.providerId && o.seats == a.seats && o.total == a.total && o.url == a.url
  }

  lemma ChecksExactly(i: Intent, a: Order, o: Order)
    ensures OrderFits(i, o) <==> IsPlanned(i, o)
    ensures HandoffComplete(o) <==> IsPayable(o)
    ensures SameOrder(a, o) <==> IsKnown(a, o)
  {
    StripIsExact(UrlText(o.url));
  }

  /** In every reachable state an order is recorded, or refused for one reason; a known one changes nothing. */
  lemma RecordedExactly(s: Sys, k: Key, o: Order, at: Time, m: MsgId)
    requires Reachable(s) && k in s.db.intents && m !in s.db.msgs
    ensures k in s.db.allocs
    ensures var (e, r) := RecordOrder(s.db, k, o, at, m);
      && (r.Mismatch? <==> !IsPlanned(s.db.intents[k], o))
      && (r.Incomplete? <==> IsPlanned(s.db.intents[k], o) && !IsPayable(o))
      && (IsPlanned(s.db.intents[k], o) && IsPayable(o) ==>
            if k in s.db.orders then (if IsKnown(s.db.orders[k], o) then r.Recorded? else r.DifferentOrder?)
            else if s.db.allocs[k].active then r.Recorded? else r.NoAllocation?)
      && (r.Recorded? ==> r.msg in e.msgs && e.msgs[r.msg].kind == Payment(k))
      && (!r.Recorded? || k in s.db.orders ==> e == s.db)
  {
    hide Reachable, Step, Run, OrderFits, HandoffComplete, SameOrder, IsPlanned, IsPayable, IsKnown, RowInv;
    ReachableRow(s, k);
    OnePaymentMessage(s);
    ChecksExactly(s.db.intents[k], if k in s.db.orders then s.db.orders[k] else o, o);
  }

  // ----- a refusal

  /** Some cycle of the candidate has an order. */
  ghost predicate EverBought(db: Db, c: CandId) { exists no: nat :: Key(c, no) in db.orders }

  /** The reservation and, unless an order has fixed it, the seat are given back; the candidate tries again, or stops. */
  ghost predicate GivesUp(d: Db, e: Db, k: Key, g: Config, now: Time) {
    && GraphExists(d, k) && GraphExists(e, k)
    && e == d.(cands := d.cands[k.cand := e.cands[k.cand]], cycles := d.cycles[k := e.cycles[k]],
               intents := d.intents[k := d.intents[k].(state := Rejected)],
               allocs := d.allocs[k := d.allocs[k].(active := false)])
    && e.cycles[k] == d.cycles[k].(state := CycleRejected, endedAt := Some(now), releasedAt := Some(now))
    && var a, b := d.cands[k.cand], e.cands[k.cand];
      && b == a.(state := b.state, nextRunAt := b.nextRunAt, target := b.target)
      && b.target == (if a.ticketNo > 0 && !EverBought(d, k.cand) then None else a.target)
      && if IsLast(g, k.no) then b.state.Stopped? && b.nextRunAt.None?
         else b.state.WaitingAvailability? && b.nextRunAt == Some(now + g.retry)
  }

  // ----- doubt

  /** These errors concern everything the buyer does at this provider. */
  predicate Concerns(e: ErrorCode) { e in {Captcha, AuthExpired, ContractChanged} }

  /** A slot of the buyer and session that has not started anything. */
  predicate Unstarted(a: Candidate, b: Candidate) {
    b.buyer == a.buyer && b.session == a.session && b.state in {Queued, RenewalClaimed, WaitingAvailability}
  }

  predicate NeedsHelp(a: Candidate, b: Candidate) { b == a.(state := NeedsAttention, nextRunAt := None) }

  /** The checkout and its candidate need attention, and so do the unstarted slots if the error concerns them. */
  ghost predicate RaisesDoubt(d: Db, e: Db, k: Key, error: ErrorCode) {
    && GraphExists(d, k) && e.cands.Keys == d.cands.Keys
    && e == d.(cands := e.cands, cycles := d.cycles[k := d.cycles[k].(state := CycleAttention)],
               intents := d.intents[k := d.intents[k].(state := Unknown)])
    && NeedsHelp(d.cands[k.cand], e.cands[k.cand])
    && forall c :: c in d.cands && c != k.cand ==>
         if Concerns(error) && Unstarted(d.cands[k.cand], d.cands[c]) then NeedsHelp(d.cands[c], e.cands[c]) else e.cands[c] == d.cands[c]
  }

  // ----- the transactions

  lemma RecordAndHold(db: Db, k: Key, o: Order, g: Config, t: Task, at: Time, m: MsgId)
    requires GraphExists(db, k) && RecordOrder(db, k, o, at, m).1 == Recorded(m) && k !in db.orders && m !in db.msgs
    requires db.cands[k.cand].cycleNo == k.no && k.no == t.prev + 1 && t.cand == k.cand
    requires t.interval == g.interval && t.maxCycles == g.maxCycles
    ensures Buys(db, ScheduleAfterHold(RecordOrder(db, k, o, at, m).0, t, k.no, o.heldAt).0, k, o, g, at, m)
  {
    hide RecordOrder, ScheduleAfterHold;
    var e := RecordOrder(db, k, o, at, m).0;
    RecordedRows(db, k, o, at, m);
    HeldRows(e, k, g, t, o.heldAt);
    var u := ScheduleAfterHold(e, t, k.no, o.heldAt).0;
    assert u.cands == db.cands[k.cand := u.cands[k.cand]] && u.cycles == db.cycles[k := u.cycles[k]];
  }

  lemma RecordedRows(db: Db, k: Key, o: Order, at: Time, m: MsgId)
    requires GraphExists(db, k) && RecordOrder(db, k, o, at, m).1 == Recorded(m) && k !in db.orders && m !in db.msgs
    ensures db.cands[k.cand].buyer in db.buyers
    ensures var a := db.cands[k.cand];
      RecordOrder(db, k, o, at, m).0
        == db.(cands := db.cands[k.cand := a.(state := if a.state.Stopped? then Stopped else AwaitingPayment)],
               cycles := db.cycles[k := db.cycles[k].(state := CyclePaid)],
               intents := db.intents[k := db.intents[k].(state := Confirmed)],
               allocs := db.allocs[k := db.allocs[k].(reserved := o.total.minor)],
               orders := db.orders[k := o],
               msgs := db.msgs[m := Message(Payment(k), a.buyer, db.buyers[a.buyer].chat, MsgPending, 0, at, at, None)])
  {}

  lemma HeldRows(e: Db, k: Key, g: Config, t: Task, heldAt: Time)
    requires GraphExists(e, k) && e.cands[k.cand].cycleNo == k.no && k.no == t.prev + 1 && t.cand == k.cand
    requires t.interval == g.interval && t.maxCycles == g.maxCycles
    ensures var u := ScheduleAfterHold(e, t, k.no, heldAt).0; var due := heldAt + g.interval;
      && k.cand in u.cands && k in u.cycles
      && u == e.(cands := e.cands[k.cand := u.cands[k.cand]], cycles := e.cycles[k := u.cycles[k]])
      && HoldsOn(e.cands[k.cand], u.cands[k.cand], IsLast(g, k.no), due)
      && IsHeld(e.cycles[k], u.cycles[k], heldAt, due, !e.cands[k.cand].state.Stopped? && !IsLast(g, k.no))
  {
    var h := Held(Read(e, k), t, k.no, heldAt);
    SameRows(e, k, h);
  }

  lemma SameRows(e: Db, k: Key, h: Graph)
    requires GraphExists(e, k) && h.intent == e.intents[k] && h.alloc == e.allocs[k] && h.order == OrderAt(e, k)
    ensures Write(e, k, h) == e.(cands := e.cands[k.cand := h.cand], cycles := e.cycles[k := h.cycle])
  {}

  lemma RefusalGivesUp(db: Db, k: Key, g: Config, now: Time)
    requires GraphExists(db, k) && db.allocs[k].active
    ensures GivesUp(db, RejectIntent(db, k, now, g.retry, IsLast(g, k.no)), k, g, now)
  {
    assert HasOrder(db, k.cand) <==> EverBought(db, k.cand) by {
      if HasOrder(db, k.cand) { var j :| j in db.orders && j.cand == k.cand; assert Key(k.cand, j.no) in db.orders; }
    }
  }

  lemma DoubtIsRaised(db: Db, k: Key, error: ErrorCode)
    requires GraphExists(db, k)
    ensures RaisesDoubt(db, IntentNeedsAttention(db, k, error), k, error)
  {
    hide BlockSiblings;
    var w := Write(db, k, DoubtfulGraph(Read(db, k)));
    DoubtfulRows(db, k);
    if Broadcasts(error) { SiblingsNeedHelp(w, db.cands[k.cand]); }
  }

  lemma DoubtfulRows(db: Db, k: Key)
    requires GraphExists(db, k)
    ensures Write(db, k, DoubtfulGraph(Read(db, k)))
         == db.(cands := db.cands[k.cand := db.cands[k.cand].(state := NeedsAttention, nextRunAt := None)],
                cycles := db.cycles[k := db.cycles[k].(state := CycleAttention)],
                intents := db.intents[k := db.intents[k].(state := Unknown)])
  {}

  lemma SiblingsNeedHelp(db: Db, a: Candidate)
    ensures var e := BlockSiblings(db, a);
      && e == db.(cands := e.cands) && e.cands.Keys == db.cands.Keys
      && forall c :: c in db.cands ==> if Unstarted(a, db.cands[c]) then NeedsHelp(db.cands[c], e.cands[c]) else e.cands[c] == db.cands[c]
  {}

  // ----- the two commits after a result

  lemma SettlingSteps(s: Sys, m: MsgId)
    requires s.flight.Working? && s.flight.job.phase.Settling?
    ensures Step(s, Proceed(m)) == Work(s, s.flight.job, m)
  {
    hide Work, Reconcile, Dispatch, Finalize, Reschedule, Evaluate, ClaimRun, Act, Deliver, JudgeAnswer, Resume;
  }

  lemma DispatchingSteps(s: Sys, m: MsgId)
    requires s.flight.Dispatching?
    ensures Step(s, Proceed(m)) == Dispatch(s, s.flight.task, s.flight.origin, s.flight.verdict)
  {
    hide Work, Reconcile, Dispatch, Finalize, Reschedule, Evaluate, ClaimRun, Act, Deliver, JudgeAnswer, Resume;
  }

  /** Nothing is left to release or to block once a refusal or a doubt has been recorded. */
  lemma NothingLeft(d: Db, e: Db, k: Key, g: Config, now: Time, error: ErrorCode, t: Task)
    requires t.cand == k.cand && GraphExists(e, k) && e.cands[k.cand].cycleNo == k.no
    ensures GivesUp(d, e, k, g, now) ==> ReleaseClaim(e, t) == e
    ensures RaisesDoubt(d, e, k, error) ==> MarkNeedsAttention(e, t) == e
  {
    if RaisesDoubt(d, e, k, error) { assert Write(e, k, BlockedGraph(Read(e, k))) == e; }
  }

  lemma SettlingKnows(s: Sys)
    requires Reachable(s) && s.flight.Working? && s.flight.job.phase.Settling?
    ensures var j := s.flight.job; var k := j.key;
      && GraphExists(s.db, k) && s.db.cands[k.cand].sub in s.db.subs && s.db.cands[k.cand].cycleNo == k.no
      && k.no >= 1 && s.db.allocs[k].active
      && j.task == MakeTask(k.cand, s.db.cands[k.cand].sub, k.no - 1, Settings(s.db, k.cand))
  {
    hide Reachable, Step, Run, PhaseReady, OriginReady;
    ReachableJob(s);
  }

  lemma BoughtAndHeld(s: Sys, m: MsgId, o: Order)
    requires Reachable(s) && s.flight.Working? && s.flight.job.phase == Settling(Accepted(o)) && m !in s.db.msgs
    ensures var j := s.flight.job; var k := j.key; var u := Work(s, j, m);
      && u.flight.Dispatching?
      && GraphExists(s.db, k) && s.db.cands[k.cand].sub in s.db.subs
      && Buys(s.db, Dispatched(u.db, u.flight.task, u.flight.origin.runNow, u.flight.verdict).0, k, o, Settings(s.db, k.cand), RecordedAt(s, j), m)
  {
    hide Reachable, Step, Run, Work, RecordOrder, ScheduleAfterHold, Buys;
    var j := s.flight.job;
    SettlingKnows(s);
    AcceptedHere(s, m, o);
    AcceptedShape(s, j, o, m);
    RecordAndHold(s.db, j.key, o, Settings(s.db, j.key.cand), j.task, RecordedAt(s, j), m);
  }

  lemma AcceptedHere(s: Sys, m: MsgId, o: Order)
    requires Reachable(s) && s.flight.Working? && s.flight.job.phase == Settling(Accepted(o)) && m !in s.db.msgs
    ensures RecordOrder(s.db, s.flight.job.key, o, RecordedAt(s, s.flight.job), m).1 == Recorded(m) && s.flight.job.key !in s.db.orders
  {
    hide Reachable, Step, Run, RecordOrder, Tables, AllRows;
    ReachableJob(s);
    ReachableTables(s);
    ReachableHolds(s);
    AcceptedReady(s.db, s.flight.job.key, o, RecordedAt(s, s.flight.job), m, s.mark);
    ReachableRow(s, s.flight.job.key);
    assert OrderAt(s.db, s.flight.job.key).None?;
  }

  lemma RefusedAndReleased(s: Sys, m: MsgId, error: ErrorCode)
    requires Reachable(s) && s.flight.Working? && s.flight.job.phase == Settling(Refused(CheckoutRejected, error))
    ensures var j := s.flight.job; var k := j.key; var u := Work(s, j, m);
      && u.flight.Dispatching?
      && GraphExists(s.db, k) && s.db.cands[k.cand].sub in s.db.subs
      && GivesUp(s.db, Dispatched(u.db, u.flight.task, u.flight.origin.runNow, u.flight.verdict).0, k, Settings(s.db, k.cand), j.now)
  {
    hide Reachable, Step, Run, RejectIntent, GivesUp;
    var j := s.flight.job;
    SettlingKnows(s);
    RefusalGivesUp(s.db, j.key, Settings(s.db, j.key.cand), j.now);
    var e := RejectIntent(s.db, j.key, j.now, j.task.retry, IsLast(Settings(s.db, j.key.cand), j.key.no));
    GivenUpStays(s.db, e, j.key, Settings(s.db, j.key.cand), j.now);
    NothingLeft(s.db, e, j.key, Settings(s.db, j.key.cand), j.now, error, j.task);
  }

  lemma GivenUpStays(d: Db, e: Db, k: Key, g: Config, now: Time)
    requires GivesUp(d, e, k, g, now)
    ensures GraphExists(e, k) && e.cands[k.cand].cycleNo == d.cands[k.cand].cycleNo
  {}

  lemma DoubtStaysRaised(d: Db, e: Db, k: Key, error: ErrorCode)
    requires RaisesDoubt(d, e, k, error)
    ensures GraphExists(e, k) && e.cands[k.cand].cycleNo == d.cands[k.cand].cycleNo
  {}

  lemma DoubtedAndBlocked(s: Sys, m: MsgId, state: CheckoutState, error: ErrorCode)
    requires Reachable(s) && s.flight.Working? && s.flight.job.phase == Settling(Refused(state, error)) && !state.CheckoutRejected?
    ensures var j := s.flight.job; var k := j.key; var u := Work(s, j, m);
      && u.flight.Dispatching?
      && GraphExists(s.db, k)
      && RaisesDoubt(s.db, Dispatched(u.db, u.flight.task, u.flight.origin.runNow, u.flight.verdict).0, k, error)
  {
    hide Reachable, Step, Run, IntentNeedsAttention, RaisesDoubt, MarkNeedsAttention;
    var j := s.flight.job;
    SettlingKnows(s);
    DoubtIsRaised(s.db, j.key, error);
    var e := IntentNeedsAttention(s.db, j.key, error);
    DoubtStaysRaised(s.db, e, j.key, error);
    NothingLeft(s.db, e, j.key, Settings(s.db, j.key.cand), j.now, error, j.task);
  }

  /** How a result leaves the rows. */
  ghost predicate SettlesAs(d: Db, e: Db, j: Job, r: CheckoutResult, at: Time, m: MsgId) {
    && GraphExists(d, j.key) && d.cands[j.key.cand].sub in d.subs
    && var g := Settings(d, j.key.cand);
      match r
      case Accepted(o) => Buys(d, e, j.key, o, g, at, m)
      case Refused(state, error) => if state.CheckoutRejected? then GivesUp(d, e, j.key, g, j.now) else RaisesDoubt(d, e, j.key, error)
  }

  /** The rows after a result and the two commits that follow it, in every reachable state. */
  lemma ResultEnds(s: Sys, m: MsgId, n: MsgId)
    requires Reachable(s) && s.flight.Working? && s.flight.job.phase.Settling? && m !in s.db.msgs
    ensures var j := s.flight.job;
      SettlesAs(s.db, Step(Step(s, Proceed(m)), Proceed(n)).db, j, j.phase.result, if j.origin.FromResume? then j.now else s.clock, m)
  {
    hide Reachable, Step, Run, Work, Buys, GivesUp, RaisesDoubt, Dispatched;
    SettlingKnows(s);
    SettlingSteps(s, m);
    match s.flight.job.phase.result {
      case Accepted(o) => BoughtAndHeld(s, m, o);
      case Refused(state, error) =>
        if state.CheckoutRejected? { RefusedAndReleased(s, m, error); } else { DoubtedAndBlocked(s, m, state, error); }
    }
    DispatchingSteps(Work(s, s.flight.job, m), n);
  }
}
