/** A run in which a user stops a candidate during the provider call, and recovery books it on. */
module LostStop {
  import opened Wrappers
  import opened Rows
  import opened Scheduling
  import opened Checkout
  import opened Environment
  import opened Engine
  import opened Guarantees
  import opened Stops
  import opened Walks
  import opened LostWrite
  import EngineProof
  import Repairs
  import BookingWorker

  const LINK := Split("https", None, None, HOST, None, "/payment/order/1", "", "")

  /** A confirmed order whose hold lasts until `t`. */
  function Seen(t: int): Observation {
    Observation(CheckoutConfirmed, None, Some("1"), [7], Some(Money(5, 0)), Some(LINK), Some(0), Some(t), true)
  }

  function Bought(t: int): Order { Order("1", [7], Money(5, 0), LINK, 0, t) }

  const TRACE := [Opened(FIRST), Wrote(FIRST)]
  const ROW := Engine.Incomplete(FIRST, true)

  function StoppedDb(): Db { Booked(1, WriteOpen, Some(0)).(cands := map[1 := Halted(Busy())]) }

  function RecordedDb(i: int, t: int): Db {
    Booked(i, Confirmed, Some(0)).(
      cands := map[1 := Busy().(state := AwaitingPayment)],
      cycles := map[FIRST := Cycle(CyclePaid, None, 0, None, 0, None)],
      allocs := map[FIRST := Allocation(1, 1, 1, 5, true)],
      orders := map[FIRST := Bought(t)],
      msgs := map[0 := Message(Payment(FIRST), 1, 1, MsgPending, 0, 0, 0, None)])
  }

  /** The second state follows the first one without any step of a user. */
  ghost predicate Leads(s: Sys, u: Sys) {
    exists events: seq<Event> :: u == Run(s, events) && forall i :: 0 <= i < |events| ==> !events[i].Outside?
  }

  lemma LeadsOn(s: Sys, u: Sys, e: Event)
    requires Leads(s, u) && !e.Outside?
    ensures Leads(s, Step(u, e))
  {
    hide Step, Run;
    var events: seq<Event> :| u == Run(s, events) && forall i :: 0 <= i < |events| ==> !events[i].Outside?;
    RunMore(s, events, e);
  }

  lemma Stopping()
    ensures Reached(Checkout1(1, WriteOpen, Some(0), RENEWING, AtProvider, TRACE).(db := StoppedDb()))
  {
    hide Advance, Evaluate, Reconcile, ClaimRun, JudgeAnswer, Resume;
    WritingFirst(1);
    var s := Checkout1(1, WriteOpen, Some(0), RENEWING, AtProvider, TRACE);
    Then(s, Outside(UserStops(1)));
  }

  lemma Restarts(s: Sys)
    requires s == Checkout1(1, WriteOpen, Some(0), RENEWING, AtProvider, TRACE).(db := StoppedDb())
    ensures Leads(s, At(StoppedDb(), Rescheduling([]), TRACE, 0))
  {
    hide Advance, Evaluate, Reconcile, ClaimRun, Act, JudgeAnswer;
    assert s == Run(s, []);
    LeadsOn(s, s, Crash);
    var s1 := At(StoppedDb(), Down, TRACE, 0);
    assert UnscheduledKeys(s1.db) == {};
    LeadsOn(s, s1, Boot([]));
  }

  lemma Lists1(s: Sys)
    requires Leads(s, At(StoppedDb(), Rescheduling([]), TRACE, 0))
    ensures Leads(s, At(StoppedDb(), Reconciling([ROW]), TRACE, 0))
  {
    hide Advance, Evaluate, Reconcile, ClaimRun, Act, JudgeAnswer;
    var s0 := At(StoppedDb(), Rescheduling([]), TRACE, 0);
    var rows := [ROW];
    assert ListsIncomplete(s0.db, rows) by { assert rows[0].key == FIRST; }
    LeadsOn(s, s0, ListIncomplete(rows));
  }

  lemma LinkIsValid()
    ensures ValidPaymentUrl(LINK, HOST) && UrlText(LINK) != "" && Strip("1") == "1"
  {
    assert "/payment/order/1" == PAYMENT_PATH + "1";
    assert "/payment/order/1"[|PAYMENT_PATH|..] == "1";
    assert UrlText(LINK)[..5] == "https";
    assert !IsBlank('1');
  }

  lemma FoundIsAccepted()
    ensures Decide(StoppedDb(), HOST, FIRST, true, Found(Seen(10))) == ConfirmFound(Bought(10))
  {
    LinkIsValid();
  }

  lemma StepFinds()
    ensures Step(At(StoppedDb(), Reconciling([ROW]), TRACE, 0), Looked(Found(Seen(10))))
         == At(Booked(1, Validated, Some(0)), Finalizing(FIRST, Bought(10), []), TRACE, 0)
  {
    hide Advance, Evaluate, ClaimRun, Act, JudgeAnswer, Decide, ApplyRecovery, Booked;
    FoundIsAccepted();
    Revives();
    assert [ROW][1..] == [] && ROW.started;
  }

  lemma Revives()
    ensures FIRST in StoppedDb().intents && FIRST.cand in StoppedDb().cands
    ensures ApplyRecovery(StoppedDb(), FIRST, ConfirmFound(Bought(10))) == Booked(1, Validated, Some(0))
  {}

  /** Recovery finds the order, and forgets the stop. */
  lemma Finds(s: Sys)
    requires Leads(s, At(StoppedDb(), Reconciling([ROW]), TRACE, 0))
    ensures Leads(s, At(Booked(1, Validated, Some(0)), Finalizing(FIRST, Bought(10), []), TRACE, 0))
  {
    hide *;
    LeadsOn(s, At(StoppedDb(), Reconciling([ROW]), TRACE, 0), Looked(Found(Seen(10))));
    StepFinds();
  }

  lemma RecordsOrder(i: int, t: int)
    requires i > 0 && t > 0
    ensures RecordOrder(Booked(i, Validated, Some(0)), FIRST, Bought(t), 0, 0) == (RecordedDb(i, t), Recorded(0))
  {
    LinkIsPayable(t);
    var db := Booked(i, Validated, Some(0));
    assert Write(db, FIRST, ConfirmedGraph(Read(db, FIRST), Bought(t))).(msgs := RecordedDb(i, t).msgs) == RecordedDb(i, t);
  }

  lemma Records(s: Sys)
    requires Leads(s, At(Booked(1, Validated, Some(0)), Finalizing(FIRST, Bought(10), []), TRACE, 0))
    ensures Leads(s, At(RecordedDb(1, 10), FinalScheduling(FIRST, 0, []), TRACE, 0))
  {
    hide Step, Run;
    var s0 := At(Booked(1, Validated, Some(0)), Finalizing(FIRST, Bought(10), []), TRACE, 0);
    RecordsOrder(1, 10);
    LeadsOn(s, s0, Proceed(0));
    Repairs.RunOne(s0, Proceed(0));
    BookingWorker.FinalizeStep(s0, FIRST, Bought(10), [], 0);
  }

  lemma LinkIsPayable(t: int)
    requires t > 0
    ensures HandoffComplete(Bought(t))
  {
    var text := UrlText(LINK);
    assert text[..5] == "https";
    assert text[0] == 'h';
    EngineProof.StripKeeps(text, 0);
  }

  function ScheduledDb(i: int, t: int): Db {
    RecordedDb(i, t).(
      cands := map[1 := Busy().(state := RenewalWaiting, nextRunAt := Some(i))],
      cycles := map[FIRST := Cycle(CycleRenewal, Some(i), 0, None, 0, None)])
  }

  lemma SchedulesHold(i: int, t: int)
    requires i > 0 && t > 0
    ensures TaskOf(RecordedDb(i, t), FIRST) == Turn(i)
    ensures ScheduleAfterHold(RecordedDb(i, t), Turn(i), 1, 0) == (ScheduledDb(i, t), Scheduled)
  {
    var db := RecordedDb(i, t);
    assert Write(db, FIRST, Held(Read(db, FIRST), Turn(i), 1, 0)) == ScheduledDb(i, t);
  }

  lemma Schedules(s: Sys)
    requires Leads(s, At(RecordedDb(1, 10), FinalScheduling(FIRST, 0, []), TRACE, 0))
    ensures Leads(s, At(ScheduledDb(1, 10), Reconciling([]), TRACE, 0))
  {
    hide Step, Run;
    var s0 := At(RecordedDb(1, 10), FinalScheduling(FIRST, 0, []), TRACE, 0);
    SchedulesHold(1, 10);
    LeadsOn(s, s0, Proceed(0));
    Repairs.RunOne(s0, Proceed(0));
    BookingWorker.FinalScheduleStep(s0, FIRST, 0, []);
  }

  /** Some stopped candidate is booked and due again without a user starting it. */
  lemma StopIsLost()
    ensures exists s, u, c: CandId ::
      && Reachable(s) && StoppedIn(s.db, c) && Leads(s, u) && c in u.db.cands
      && u.db.cands[c].state.RenewalWaiting? && u.db.cands[c].nextRunAt.Some?
  {
    hide Step, Run;
    Stopping();
    var s := Checkout1(1, WriteOpen, Some(0), RENEWING, AtProvider, TRACE).(db := StoppedDb());
    ReachedIsReachable(s);
    Restarts(s);
    Lists1(s);
    Finds(s);
    Records(s);
    Schedules(s);
    var u := At(ScheduledDb(1, 10), Reconciling([]), TRACE, 0);
    assert StoppedIn(s.db, 1) && Leads(s, u) && u.db.cands[1].nextRunAt == Some(1);
  }
}
