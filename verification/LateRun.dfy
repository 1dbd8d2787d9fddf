/** Runs in which a link is claimed while it is current, and sent in time: when is it current then? */
module LateRun {
  import opened Wrappers
  import opened Rows
  import opened Planning
  import opened Scheduling
  import opened Checkout
  import opened Environment
  import opened Mailbox
  import opened Engine
  import opened Invariants
  import opened EngineWork
  import opened History
  import opened Guarantees
  import opened Walks
  import opened LostWrite
  import opened LostStop
  import opened BookingStore
  import opened OutboxDelivery
  import opened LateLinks
  import BookingWorker

  /** The message of a link that expires at `t`. */
  function Linked(t: int): Item { Item(0, 1, 1, Some(t), 1) }

  function Next(i: int): Task { Turn(i).(prev := 1) }

  const SECOND := Key(1, 2)
  const CLAIMED := Message(Payment(FIRST), 1, 1, MsgSending, 1, 0, 0, None)

  function Judging(i: int, phase: Phase): Sys { Checkout1(i, WriteOpen, Some(0), RENEWING, phase, TRACE) }

  lemma Answering(i: int, t: int)
    requires 0 < i < t
    ensures Reached(Judging(i, Judged(StageValidated, Accepted(Bought(t)))))
  {
    hide Step, Run;
    WritingFirst(i);
    var s := Judging(i, AtProvider);
    Then(s, Answered(Observed(Seen(t))));
    LinkIsValid();
    BookingWorker.StepAnswered(s, s.flight.job, Observed(Seen(t)));
    assert Judge(s.flight.job.request, Seen(t), HOST) == (StageValidated, Accepted(Bought(t)));
  }

  lemma Validating(i: int, t: int)
    requires 0 < i < t
    ensures Reached(Checkout1(i, Validated, Some(0), RENEWING, Settling(Accepted(Bought(t))), TRACE))
  {
    hide Step, Run;
    Answering(i, t);
    var s := Judging(i, Judged(StageValidated, Accepted(Bought(t))));
    Then(s, Proceed(0));
    BookingWorker.StepJudged(s, s.flight.job);
    assert RecordStage(s.db, FIRST, StageValidated, 0) == Booked(i, Validated, Some(0));
  }

  lemma Recording(i: int, t: int)
    requires 0 < i < t
    ensures Reached(At(RecordedDb(i, t), Dispatching(Turn(i), RENEWING, Hold(1, 0)), TRACE, 0))
  {
    hide Step, Run;
    Validating(i, t);
    var s := Checkout1(i, Validated, Some(0), RENEWING, Settling(Accepted(Bought(t))), TRACE);
    Then(s, Proceed(0));
    RecordsOrder(i, t);
    StepWorks(s, s.flight.job);
    AcceptedShape(s, s.flight.job, Bought(t), 0);
  }

  lemma StepWorks(s: Sys, j: Job)
    requires s.flight == Working(j)
    ensures Step(s, Proceed(0)) == Work(s, j, 0)
  {
    hide Work, Reconcile, Dispatch, Finalize, Reschedule, Evaluate, ClaimRun, Act, Deliver, JudgeAnswer;
  }

  lemma StepDispatched(s: Sys, t: Task, origin: Origin, v: Verdict)
    requires s.flight == Dispatching(t, origin, v)
    ensures Step(s, Proceed(0)) == Dispatch(s, t, origin, v)
  {
    hide Work, Reconcile, Dispatch, Finalize, Reschedule, Evaluate, ClaimRun, Act, Deliver, JudgeAnswer;
  }

  lemma Scheduling1(i: int, t: int)
    requires 0 < i < t
    ensures Reached(At(ScheduledDb(i, t), Renewing([], 0), TRACE, 0))
  {
    hide Step, Run;
    Recording(i, t);
    var s := At(RecordedDb(i, t), Dispatching(Turn(i), RENEWING, Hold(1, 0)), TRACE, 0);
    Then(s, Proceed(0));
    SchedulesHold(i, t);
    StepDispatched(s, Turn(i), RENEWING, Hold(1, 0));
  }

  /** The message is due and its cycle is current. */
  lemma ClaimsNow(i: int, t: int)
    requires 0 < i < t
    ensures ClaimedNow(ScheduledDb(i, t), 0, Linked(t))
  {}

  function ClaimedDb(i: int, t: int): Db { ScheduledDb(i, t).(msgs := map[0 := CLAIMED]) }

  lemma ClaimingMail(i: int, t: int)
    requires 0 < i < t
    ensures Step(At(ScheduledDb(i, t), Renewing([], 0), TRACE, 0), Outbox(ClaimMail(0, {0}))) == At(ClaimedDb(i, t), Renewing([], 0), TRACE, 0)
  {
    hide Advance, Evaluate, Reconcile, ClaimRun, JudgeAnswer, Resume;
    var db := ScheduledDb(i, t);
    assert ClaimState(db, db.msgs[0], 0) == MsgSending;
    assert ClaimMessages(db, 0, {0}).msgs == map[0 := CLAIMED];
    assert DueMessage(db, 0, 0);
  }

  // ----- the others go on

  /** The second state follows the first one by steps of others than the delivery worker. */
  ghost predicate OthersLead(s: Sys, u: Sys) {
    exists events: seq<Event> :: u == Run(s, events) && forall i :: 0 <= i < |events| ==> ByOthers(events[i])
  }

  lemma OthersOn(s: Sys, u: Sys, e: Event)
    requires OthersLead(s, u) && ByOthers(e)
    ensures OthersLead(s, Step(u, e))
  {
    hide Step, Run;
    var events: seq<Event> :| u == Run(s, events) && forall i :: 0 <= i < |events| ==> ByOthers(events[i]);
    RunMore(s, events, e);
  }

  lemma OthersStart(s: Sys)
    ensures OthersLead(s, s)
  {
    hide Step;
    assert s == Run(s, []);
  }

  lemma Ending(i: int, t: int, s: Sys)
    requires 0 < i < t
    requires OthersLead(s, At(ClaimedDb(i, t), Renewing([], 0), TRACE, 0))
    ensures OthersLead(s, At(ClaimedDb(i, t), Idle, TRACE, 0))
  {
    hide Work, Reconcile, Dispatch, Finalize, Reschedule, Evaluate, ClaimRun, Act, Deliver, JudgeAnswer;
    OthersOn(s, At(ClaimedDb(i, t), Renewing([], 0), TRACE, 0), Proceed(0));
  }

  lemma WaitingOn(i: int, t: int, s: Sys)
    requires 0 < i < t
    requires OthersLead(s, At(ClaimedDb(i, t), Idle, TRACE, 0))
    ensures OthersLead(s, At(ClaimedDb(i, t), Idle, TRACE, 0).(clock := i))
  {
    hide Advance, Evaluate, Reconcile, ClaimRun, Act, Deliver, JudgeAnswer;
    OthersOn(s, At(ClaimedDb(i, t), Idle, TRACE, 0), Tick(i));
  }

  lemma ResumingOn(i: int, t: int, s: Sys)
    requires 0 < i < t
    requires OthersLead(s, At(ClaimedDb(i, t), Idle, TRACE, 0).(clock := i))
    ensures OthersLead(s, At(ClaimedDb(i, t), Resuming([], i), TRACE, i))
  {
    hide Advance, Evaluate, Reconcile, ClaimRun, Act, Deliver, JudgeAnswer;
    OthersOn(s, At(ClaimedDb(i, t), Idle, TRACE, 0).(clock := i), StartRun([]));
  }

  lemma StepResumed(s: Sys, now: Time)
    requires s.flight == Resuming([], now)
    ensures Step(s, Proceed(0)) == s.(flight := Claiming(now))
  {
    hide Work, Reconcile, Dispatch, Finalize, Reschedule, Evaluate, ClaimRun, Act, Deliver, JudgeAnswer;
  }

  lemma RenewingOn(i: int, t: int, s: Sys)
    requires 0 < i < t
    requires OthersLead(s, At(ClaimedDb(i, t), Resuming([], i), TRACE, i))
    ensures OthersLead(s, At(ClaimedDb(i, t), Claiming(i), TRACE, i))
  {
    hide Step, Run;
    OthersOn(s, At(ClaimedDb(i, t), Resuming([], i), TRACE, i), Proceed(0));
    StepResumed(At(ClaimedDb(i, t), Resuming([], i), TRACE, i), i);
  }

  function ReleasedDb(i: int, t: int): Db {
    ClaimedDb(i, t).(
      cands := map[1 := Busy().(state := RenewalClaimed, nextRunAt := Some(i))],
      cycles := map[FIRST := Cycle(CycleElapsed, Some(i), 0, Some(i), 0, Some(i))],
      allocs := map[FIRST := Allocation(1, 1, 1, 5, false)])
  }

  lemma ReleasesAndClaims(i: int, t: int)
    requires 0 < i < t
    ensures Claim(ClaimedDb(i, t), i, {1}) == ReleasedDb(i, t)
    ensures Due(ClaimedDb(i, t), 1, i) && ClaimedTasks(ClaimedDb(i, t), i, {1}, [Next(i)])
  {
    assert [Next(i)][0].cand == 1;
    ReleasesFirst(i, t);
    ClaimsFirst(i, t);
  }

  lemma ReleasesFirst(i: int, t: int)
    requires 0 < i < t
    ensures var db := ClaimedDb(i, t); ReleaseElapsed(db, i) == db.(cycles := ReleasedDb(i, t).cycles, allocs := ReleasedDb(i, t).allocs)
  {
    var db := ClaimedDb(i, t);
    assert ReleaseElapsed(db, i).cycles == ReleasedDb(i, t).cycles && ReleaseElapsed(db, i).allocs == ReleasedDb(i, t).allocs;
  }

  lemma ClaimsFirst(i: int, t: int)
    requires 0 < i < t
    requires var db := ClaimedDb(i, t); ReleaseElapsed(db, i) == db.(cycles := ReleasedDb(i, t).cycles, allocs := ReleasedDb(i, t).allocs)
    ensures Claim(ClaimedDb(i, t), i, {1}) == ReleasedDb(i, t) && Claims(ClaimedDb(i, t), i, {1}, Next(i))
  {
    hide ReleaseElapsed;
    assert Claim(ClaimedDb(i, t), i, {1}).cands == ReleasedDb(i, t).cands;
  }

  lemma ClaimingAgain(i: int, t: int, s: Sys)
    requires 0 < i < t
    requires OthersLead(s, At(ClaimedDb(i, t), Claiming(i), TRACE, i))
    ensures OthersLead(s, At(ReleasedDb(i, t), Renewing([Next(i)], i), TRACE, i))
  {
    hide ScheduleAfterHold, ScheduleWait, Held, Waiting, Dispatched, ClaimedDb, ReleasedDb, Claim, Due, ClaimedTasks, OthersLead;
    OthersOn(s, At(ClaimedDb(i, t), Claiming(i), TRACE, i), ClaimDue({1}, [Next(i)]));
    ReleasesAndClaims(i, t);
  }

  lemma EvaluatingAgain(i: int, t: int, s: Sys)
    requires 0 < i < t
    requires OthersLead(s, At(ReleasedDb(i, t), Renewing([Next(i)], i), TRACE, i))
    ensures OthersLead(s, At(ReleasedDb(i, t), Evaluating(Next(i), [], i, i, 1), TRACE, i))
  {
    hide Advance, Evaluate, Reconcile, ClaimRun, Act, Deliver, JudgeAnswer;
    OthersOn(s, At(ReleasedDb(i, t), Renewing([Next(i)], i), TRACE, i), LoadContext);
    assert [Next(i)][1..] == [] && ReleasedDb(i, t).subs[1].version == 1;
  }

  function RenewedDb(i: int, t: int): Db
    requires i > 0
  {
    WithCycle(ReleasedDb(i, t), PlanRequest(1, 1, Terms(i), Money(10, 0), Some(Money(5, 0)), [7], i, Some(1)))
  }

  lemma PlanningAgain(i: int, t: int, s: Sys)
    requires 0 < i < t
    requires OthersLead(s, At(ReleasedDb(i, t), Evaluating(Next(i), [], i, i, 1), TRACE, i))
    ensures exists u :: OthersLead(s, u) && u.db == RenewedDb(i, t) && u.clock == i
  {
    hide Step, Run;
    var s0 := At(ReleasedDb(i, t), Evaluating(Next(i), [], i, i, 1), TRACE, i);
    var e := Ready([7], Money(5, 0));
    OthersOn(s, s0, Evaluated(e));
    var r := PlanFor(s0, Next(i), i, 1, e, Terms(i));
    assert Claimable(s0.db, r) && !SlotRaises(s0.db.cands[1], r);
    assert Plan(s0.db, r) == (WithCycle(s0.db, r), Planned(2));
    BookingWorker.EvaluateRun(s0, e);
  }

  lemma OthersPlan(i: int, t: int)
    requires 0 < i < t
    ensures exists u :: OthersLead(At(ClaimedDb(i, t), Renewing([], 0), TRACE, 0), u) && u.db == RenewedDb(i, t) && u.clock == i
  {
    hide *;
    var v := At(ClaimedDb(i, t), Renewing([], 0), TRACE, 0);
    OthersStart(v);
    Ending(i, t, v);
    WaitingOn(i, t, v);
    ResumingOn(i, t, v);
    RenewingOn(i, t, v);
    ClaimingAgain(i, t, v);
    EvaluatingAgain(i, t, v);
    PlanningAgain(i, t, v);
  }

  /** A session that already has its place in a full batch may be booked again. */
  lemma RenewedInFullBatch()
    ensures exists s, c: CandId ::
      && Reachable(s) && c in s.db.cands && s.db.cands[c].sub in s.db.subs && Settings(s.db, c).maxSessionsPerBatch == Some(1)
      && Key(c, 1) in s.db.allocs && !s.db.allocs[Key(c, 1)].active && Key(c, 2) in s.db.allocs && s.db.allocs[Key(c, 2)].active
  {
    hide Reachable, Reached, OthersLead, Step, Run;
    var v := At(ClaimedDb(1, 2), Renewing([], 0), TRACE, 0);
    ClaimedIsReached(1, 2);
    OthersPlan(1, 2);
    var u :| OthersLead(v, u) && u.db == RenewedDb(1, 2) && u.clock == 1;
    ReachedIsReachable(v);
    LeadIsReachable(v, u);
    RenewedHolds(1, 2);
  }

  lemma ClaimedIsReached(i: int, t: int)
    requires 0 < i < t
    ensures Reached(At(ClaimedDb(i, t), Renewing([], 0), TRACE, 0))
  {
    hide Step, Run, Reached;
    Scheduling1(i, t);
    ClaimingMail(i, t);
    Then(At(ScheduledDb(i, t), Renewing([], 0), TRACE, 0), Outbox(ClaimMail(0, {0})));
  }

  lemma LeadIsReachable(s: Sys, u: Sys)
    requires Reachable(s) && OthersLead(s, u)
    ensures Reachable(u)
  {
    hide Step, Run, Reachable;
    var events: seq<Event> :| u == Run(s, events) && forall i :: 0 <= i < |events| ==> ByOthers(events[i]);
    StillReachable(s, events);
  }

  lemma RenewedHolds(i: int, t: int)
    requires 0 < i < t
    ensures var db := RenewedDb(i, t);
      && 1 in db.cands && db.cands[1].sub in db.subs && Settings(db, 1).maxSessionsPerBatch == Some(1)
      && FIRST in db.allocs && !db.allocs[FIRST].active && SECOND in db.allocs && db.allocs[SECOND].active
  {}

  // ----- when a link sent in time is current

  /** A payment whose link expires `t` after its hold, for a subscription that books again `i` after it. */
  predicate IsLink(db: Db, m: MsgId, i: int, t: int) {
    && m in db.msgs && db.msgs[m].kind.Payment? && db.msgs[m].kind.order in db.orders
    && var k := db.msgs[m].kind.order;
      && db.orders[k].expiresAt == db.orders[k].heldAt + t
      && k.cand in db.cands && db.cands[k.cand].sub in db.subs && Settings(db, k.cand).interval == i
  }

  /** Such a link is claimed as current, and whatever others do then, it may be sent in time in state `u`. */
  ghost predicate SentInTime(s: Sys, chosen: set<MsgId>, x: Item, u: Sys, i: int, t: int) {
    && Reachable(s) && ClaimedNow(s.db, s.clock, x) && x.msg in chosen && IsLink(s.db, x.msg, i, t)
    && OthersLead(Step(s, Outbox(ClaimMail(s.clock, chosen))), u) && MaySend(x, u.clock)
  }

  /** If links last longer than the renewal interval, one is sent in time although a newer cycle has been planned. */
  lemma SupersededInTime(i: int, t: int)
    requires 0 < i < t
    ensures exists s, x: Item, u :: SentInTime(s, {x.msg}, x, u, i, t) && !Current(u.db, x.msg)
  {
    hide Step, Run;
    Scheduling1(i, t);
    var s := At(ScheduledDb(i, t), Renewing([], 0), TRACE, 0);
    ReachedIsReachable(s);
    ClaimsNow(i, t);
    ClaimingMail(i, t);
    OthersPlan(i, t);
    var u :| OthersLead(At(ClaimedDb(i, t), Renewing([], 0), TRACE, 0), u) && u.db == RenewedDb(i, t) && u.clock == i;
    assert !Current(u.db, 0) && MaySend(Linked(t), u.clock);
    assert s.clock == 0 && Linked(t).msg == 0 && IsLink(s.db, 0, i, t);
    assert SentInTime(s, {Linked(t).msg}, Linked(t), u, i, t);
  }

  lemma LinkStays(s: Sys, chosen: set<MsgId>, x: Item, u: Sys, i: int, t: int)
    requires SentInTime(s, chosen, x, u, i, t)
    ensures Reachable(u) && IsLink(u.db, x.msg, i, t) && u.db.msgs[x.msg].kind == s.db.msgs[x.msg].kind
    ensures u.db.orders[s.db.msgs[x.msg].kind.order] == s.db.orders[s.db.msgs[x.msg].kind.order]
  {
    hide Step;
    var claim := Outbox(ClaimMail(s.clock, chosen));
    var events :| u == Run(Step(s, claim), events) && forall j :: 0 <= j < |events| ==> ByOthers(events[j]);
    assert Run(s, [claim]) == Step(s, claim) by { RunMore(s, [], claim); }
    RunAppend(s, [claim], events);
    StillReachable(s, [claim] + events);
    var live, paymentHost, before :| s == Run(Start(live, paymentHost), before);
    RunAppend(Start(live, paymentHost), before, [claim] + events);
    RunPersists(live, paymentHost, before, [claim] + events);
  }

  /** Every link sent in time is current exactly if links last no longer than the renewal interval. */
  lemma InTimeExactly(i: int, t: int)
    requires i > 0 && t > 0
    ensures (forall s, chosen, x, u :: SentInTime(s, chosen, x, u, i, t) ==> Current(u.db, x.msg)) <==> t <= i
  {
    hide Step, Run;
    if t <= i {
      forall s, chosen, x, u | SentInTime(s, chosen, x, u, i, t) ensures Current(u.db, x.msg) {
        LinkStays(s, chosen, x, u, i, t);
        InTimeIsCurrent(u, u.db.msgs[x.msg].kind.order, u.clock);
      }
    } else {
      SupersededInTime(i, t);
    }
  }
}
