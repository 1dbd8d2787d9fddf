/** A run in which a repeated write is lost and made a third time, although only one retry was authorised. */
module LostWrite {
  import opened Wrappers
  import opened Rows
  import opened Planning
  import opened Scheduling
  import opened Checkout
  import opened Environment
  import opened Mailbox
  import opened Engine
  import opened Guarantees
  import opened Walks
  import opened Writes

  /** Single tickets for one session of a batch, booked again after `i`. */
  function Terms(i: int): Config {
    Config(1, false, Some(1), Some(Money(10, 0)), Some(Money(10, 0)), None, None, None, i, 1, 1, None)
  }

  const SLOT := Candidate(1, 1, 1, 1, 1, true, Queued, 0, 0, None, None, None)

  function Turn(i: int): Task { Task(1, 1, 0, i, 1, None) }

  const FIRST := Key(1, 1)

  function Subscribed(i: int): Subscription { Subscription(1, true, false, 1, Terms(i)) }

  const USER := Buyer(1, 1)

  function Catalogue(i: int, a: Candidate): Db {
    Db(map[1 := USER], map[1 := Subscribed(i)], map[1 := Session(i + 100)], map[1 := a],
       map[], map[], map[], map[], map[])
  }

  function Claimed1(): Candidate { SLOT.(state := RenewalClaimed) }

  function Busy(): Candidate { SLOT.(state := Submitting, cycleNo := 1) }

  function Booked(i: int, state: IntentState, started: Option<Time>): Db {
    Catalogue(i, Busy()).(
      cycles := map[FIRST := Cycle(CycleSubmitting, None, 0, None, 0, None)],
      intents := map[FIRST := Intent(state, [7], Money(10, 0), Money(5, 0), 1, false, started, 0)],
      allocs := map[FIRST := Allocation(1, 1, 1, 10, true)])
  }

  function Checkout1(i: int, state: IntentState, started: Option<Time>, origin: Origin, phase: Phase, log: seq<LogEntry>): Sys {
    At(Booked(i, state, started),
       Working(Job(FIRST, Request(FIRST, 1, [7], Money(5, 0), Money(10, 0), 1, false), Turn(i), origin, phase, 0)), log, 0)
  }

  const RENEWING := FromRenewal([], 0)
  const RESUMING := FromResume([], 0)

  lemma Subscribing(i: int)
    requires i > 0
    ensures Reached(At(Catalogue(i, SLOT), Down, [], 0))
  {
    hide Advance, Evaluate, Reconcile, ClaimRun, JudgeAnswer, Resume;
    Begin();
    var s0 := At(NoDb, Down, [], 0);
    Then(s0, Outside(UserSubscribes(1, 1, USER, Terms(i))));
    var s1 := Step(s0, Outside(UserSubscribes(1, 1, USER, Terms(i))));
    Then(s1, Outside(SessionSeen(1, i + 100)));
    var s2 := Step(s1, Outside(SessionSeen(1, i + 100)));
    Then(s2, Outside(SlotAdded(1, SLOT)));
    assert NewSlot(s2.db, 1, SLOT);
    assert Step(s2, Outside(SlotAdded(1, SLOT))) == At(Catalogue(i, SLOT), Down, [], 0);
  }

  lemma ClaimingFirst(i: int)
    requires i > 0
    ensures Reached(At(Catalogue(i, Claimed1()), Renewing([Turn(i)], 0), [], 0))
  {
    Subscribing(i);
    StartsClaiming(Catalogue(i, SLOT));
    var s2 := At(Catalogue(i, SLOT), Claiming(0), [], 0);
    Then(s2, ClaimDue({1}, [Turn(i)]));
    assert Claims(s2.db, 0, {1}, Turn(i));
    assert ClaimedTasks(s2.db, 0, {1}, [Turn(i)]) by { assert [Turn(i)][0].cand == 1; }
    assert Claim(s2.db, 0, {1}) == Catalogue(i, Claimed1());
  }

  lemma EvaluatingFirst(i: int)
    requires i > 0
    ensures Reached(At(Catalogue(i, Claimed1()), Evaluating(Turn(i), [], 0, 0, 1), [], 0))
  {
    hide Advance, Evaluate, Reconcile, ClaimRun, Act, Deliver, JudgeAnswer, Run;
    ClaimingFirst(i);
    assert [Turn(i)][1..] == [];
    Then(At(Catalogue(i, Claimed1()), Renewing([Turn(i)], 0), [], 0), LoadContext);
  }

  lemma PlansFirst(i: int)
    requires i > 0
    ensures var r := PlanRequest(1, 1, Terms(i), Money(10, 0), Some(Money(5, 0)), [7], 0, Some(1));
      Plan(Catalogue(i, Claimed1()), r) == (Booked(i, Pending, None), Planned(1))
    ensures Catalogue(i, Claimed1()).subs == map[1 := Subscribed(i)]
    ensures 1 in Booked(i, Pending, None).cands && Booked(i, Pending, None).cands[1].session == 1
  {
    var r := PlanRequest(1, 1, Terms(i), Money(10, 0), Some(Money(5, 0)), [7], 0, Some(1));
    var db := Catalogue(i, Claimed1());
    assert Claimable(db, r) && !SlotRaises(db.cands[1], r);
    assert WithCycle(db, r) == Booked(i, Pending, None);
  }

  lemma Planning1(i: int)
    requires i > 0
    ensures Reached(Checkout1(i, Pending, None, RENEWING, BeforeWrite, []))
  {
    hide Advance, Reconcile, ClaimRun, Act, Deliver, JudgeAnswer, Run, Plan, Catalogue, Booked;
    EvaluatingFirst(i);
    PlansFirst(i);
    var s := At(Catalogue(i, Claimed1()), Evaluating(Turn(i), [], 0, 0, 1), [], 0);
    Then(s, Evaluated(Ready([7], Money(5, 0))));
  }

  lemma WritingFirst(i: int)
    requires i > 0
    ensures Reached(Checkout1(i, WriteOpen, Some(0), RENEWING, AtProvider, [Opened(FIRST), Wrote(FIRST)]))
  {
    hide Evaluate, Reconcile, Dispatch, Finalize, Reschedule, Resume, ClaimRun, Act, Deliver, JudgeAnswer, Run, RecordStage;
    Planning1(i);
    StagesFirst(i);
    var s0 := Checkout1(i, Pending, None, RENEWING, BeforeWrite, []);
    Then(s0, Proceed(0));
    Then(Checkout1(i, WriteOpen, Some(0), RENEWING, WriteRecorded, [Opened(FIRST)]), Proceed(0));
  }

  lemma StagesFirst(i: int)
    ensures RecordStage(Booked(i, Pending, None), FIRST, WriteStarted, 0) == Booked(i, WriteOpen, Some(0))
  {}

  lemma Restarting()
    ensures Reached(At(Booked(1, WriteOpen, Some(0)), Rescheduling([]), [Opened(FIRST), Wrote(FIRST)], 0))
  {
    hide Advance, Evaluate, Reconcile, ClaimRun, Act, Deliver, JudgeAnswer;
    WritingFirst(1);
    var log := [Opened(FIRST), Wrote(FIRST)];
    var s0 := Checkout1(1, WriteOpen, Some(0), RENEWING, AtProvider, log);
    Then(s0, Crash);
    var s1 := At(Booked(1, WriteOpen, Some(0)), Down, log, 0);
    assert Step(s0, Crash) == s1;
    assert UnscheduledKeys(s1.db) == {};
    Then(s1, Boot([]));
    assert Step(s1, Boot([])) == At(s1.db, Rescheduling([]), log, 0);
  }

  lemma Listing()
    ensures Reached(At(Booked(1, WriteOpen, Some(0)), Reconciling([Engine.Incomplete(FIRST, true)]), [Opened(FIRST), Wrote(FIRST)], 0))
  {
    hide Advance, Evaluate, Reconcile, ClaimRun, Act, Deliver, JudgeAnswer;
    Restarting();
    var s0 := At(Booked(1, WriteOpen, Some(0)), Rescheduling([]), [Opened(FIRST), Wrote(FIRST)], 0);
    var rows := [Engine.Incomplete(FIRST, true)];
    assert ListsIncomplete(s0.db, rows) by { assert rows[0].key == FIRST; }
    Then(s0, ListIncomplete(rows));
  }

  lemma Looking()
    ensures Reached(At(Booked(1, RetryAllowed, Some(0)), Reconciling([]), [Opened(FIRST), Wrote(FIRST), Authorised(FIRST)], 0))
  {
    hide Advance, Evaluate, ClaimRun, Act, Deliver, JudgeAnswer, Run, ApplyRecovery, Validate;
    Listing();
    Forgives();
    var log := [Opened(FIRST), Wrote(FIRST)];
    var rows := [Engine.Incomplete(FIRST, true)];
    Then(At(Booked(1, WriteOpen, Some(0)), Reconciling(rows), log, 0), Looked(NotFoundThere));
    assert rows[1..] == [] && log + [Authorised(FIRST)] == [Opened(FIRST), Wrote(FIRST), Authorised(FIRST)];
  }

  lemma Forgives()
    ensures ApplyRecovery(Booked(1, WriteOpen, Some(0)), FIRST, AllowRetry) == Booked(1, RetryAllowed, Some(0))
  {}

  lemma Authorising()
    ensures Reached(At(Booked(1, RetryAllowed, Some(0)), Idle, [Opened(FIRST), Wrote(FIRST), Authorised(FIRST)], 0))
  {
    hide Work, Reconcile, Dispatch, Finalize, Reschedule, Evaluate, ClaimRun, Act, Deliver, JudgeAnswer;
    Looking();
    var s0 := At(Booked(1, RetryAllowed, Some(0)), Reconciling([]), [Opened(FIRST), Wrote(FIRST), Authorised(FIRST)], 0);
    Then(s0, Proceed(0));
    assert RecoverClaims(s0.db) == s0.db;
  }

  lemma Reloading()
    ensures Reached(Checkout1(1, RetryAllowed, Some(0), RESUMING, BeforeWrite, [Opened(FIRST), Wrote(FIRST), Authorised(FIRST)]))
  {
    hide Evaluate, Reconcile, Dispatch, Finalize, Reschedule, Work, ClaimRun, Act, Deliver, JudgeAnswer, Run, Resumable;
    Authorising();
    MayResume();
    var log := [Opened(FIRST), Wrote(FIRST), Authorised(FIRST)];
    Then(At(Booked(1, RetryAllowed, Some(0)), Idle, log, 0), StartRun([FIRST]));
    Then(At(Booked(1, RetryAllowed, Some(0)), Resuming([FIRST], 0), log, 0), Proceed(0));
    assert [FIRST][1..] == [];
  }

  lemma MayResume()
    ensures Resumable(Booked(1, RetryAllowed, Some(0)), FIRST, 0)
  {}

  lemma WritingAgain()
    ensures Reached(Checkout1(1, RetryAllowed, Some(0), RESUMING, AtProvider,
      [Opened(FIRST), Wrote(FIRST), Authorised(FIRST), Opened(FIRST), Wrote(FIRST)]))
  {
    hide Evaluate, Reconcile, Dispatch, Finalize, Reschedule, Resume, ClaimRun, Act, Deliver, JudgeAnswer, Run, RecordStage;
    Reloading();
    StagesAgain();
    var log := [Opened(FIRST), Wrote(FIRST), Authorised(FIRST)];
    Then(Checkout1(1, RetryAllowed, Some(0), RESUMING, BeforeWrite, log), Proceed(0));
    Then(Checkout1(1, RetryAllowed, Some(0), RESUMING, WriteRecorded, log + [Opened(FIRST)]), Proceed(0));
    assert log + [Opened(FIRST)] + [Wrote(FIRST)] == [Opened(FIRST), Wrote(FIRST), Authorised(FIRST), Opened(FIRST), Wrote(FIRST)];
  }

  lemma StagesAgain()
    ensures RecordStage(Booked(1, RetryAllowed, Some(0)), FIRST, WriteStarted, 0) == Booked(1, RetryAllowed, Some(0))
  {}

  /** Some run calls the provider three times for one checkout with a single authorised retry. */
  lemma ThreeWritesOneAuthorisation()
    ensures exists s :: Reachable(s) && Times(s.log, Wrote(FIRST)) == 3 && Times(s.log, Authorised(FIRST)) == 1
  {
    hide Step, Run;
    WritingAgain();
    var log := [Opened(FIRST), Wrote(FIRST), Authorised(FIRST), Opened(FIRST), Wrote(FIRST)];
    var s := Checkout1(1, RetryAllowed, Some(0), RESUMING, AtProvider, log);
    ReachedIsReachable(s);
    assert Resumable(s.db, FIRST, 0);
    LostRepetitionIsRepeated(s, 0);
    CountedTwice();
    var more := [Interrupt, StartRun([FIRST]), Proceed(0), Proceed(0), Proceed(0)];
    var events :| s == Run(Start(true, HOST), events);
    RunAppend(Start(true, HOST), events, more);
    assert Reachable(Run(s, more));
  }

  lemma CountedTwice()
    ensures var log := [Opened(FIRST), Wrote(FIRST), Authorised(FIRST), Opened(FIRST), Wrote(FIRST)];
      Times(log, Wrote(FIRST)) == 2 && Times(log, Authorised(FIRST)) == 1
  {
    Counted(Wrote(FIRST));
    Counted(Authorised(FIRST));
  }

  lemma Counted(x: LogEntry)
    ensures var log := [Opened(FIRST), Wrote(FIRST), Authorised(FIRST), Opened(FIRST), Wrote(FIRST)];
      Times(log, x) == (if x == Opened(FIRST) || x == Wrote(FIRST) then 2 else if x == Authorised(FIRST) then 1 else 0)
  {
    var a, b, c := [Opened(FIRST)], [Opened(FIRST), Wrote(FIRST)], [Opened(FIRST), Wrote(FIRST), Authorised(FIRST)];
    var d := [Opened(FIRST), Wrote(FIRST), Authorised(FIRST), Opened(FIRST)];
    assert a == [] + [Opened(FIRST)] && b == a + [Wrote(FIRST)] && c == b + [Authorised(FIRST)];
    assert d == c + [Opened(FIRST)] && d + [Wrote(FIRST)] == [Opened(FIRST), Wrote(FIRST), Authorised(FIRST), Opened(FIRST), Wrote(FIRST)];
    TimesMore([], Opened(FIRST), x);
    TimesMore(a, Wrote(FIRST), x);
    TimesMore(b, Authorised(FIRST), x);
    TimesMore(c, Opened(FIRST), x);
    TimesMore(d, Wrote(FIRST), x);
  }
}
