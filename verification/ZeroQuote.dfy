/** A checkout that was quoted at zero: how it comes about, and that it stays for good. */
module ZeroQuote {
  import opened Wrappers
  import opened Rows
  import opened Planning
  import opened Scheduling
  import opened Checkout
  import opened Environment
  import opened Mailbox
  import opened Engine
  import opened History
  import opened Guarantees
  import opened Walks
  import opened LostWrite

  /** The checkout is left over from a plan for a place that costs nothing. */
  function LeftOver(): Db {
    Catalogue(1, Busy()).(
      cycles := map[FIRST := Cycle(CycleSubmitting, None, 0, None, 0, None)],
      intents := map[FIRST := Intent(Pending, [7], Money(10, 0), Money(0, 0), 1, false, None, 0)],
      allocs := map[FIRST := Allocation(1, 1, 1, 10, true)])
  }

  lemma PlansForNothing()
    ensures var r := PlanRequest(1, 1, Terms(1), Money(10, 0), Some(Money(0, 0)), [7], 0, Some(1));
      Plan(Catalogue(1, Claimed1()), r) == (LeftOver(), Planned(1))
  {
    var r := PlanRequest(1, 1, Terms(1), Money(10, 0), Some(Money(0, 0)), [7], 0, Some(1));
    var db := Catalogue(1, Claimed1());
    assert Claimable(db, r) && !SlotRaises(db.cands[1], r);
    assert WithCycle(db, r) == LeftOver();
  }

  lemma Planning0()
    ensures Reached(At(LeftOver(), Dispatching(Turn(1), RENEWING, WaitFor(false)), [], 0))
  {
    hide Advance, Reconcile, ClaimRun, Act, Deliver, Run, Plan, LeftOver, Catalogue;
    EvaluatingFirst(1);
    PlansForNothing();
    var s := At(Catalogue(1, Claimed1()), Evaluating(Turn(1), [], 0, 0, 1), [], 0);
    LeftBehind();
    Then(s, Evaluated(Ready([7], Money(0, 0))));
  }

  lemma LeftBehind()
    ensures Catalogue(1, Claimed1()).subs == map[1 := Subscribed(1)]
    ensures 1 in LeftOver().cands && LeftOver().cands[1].session == 1
  {}

  lemma Resuming0()
    ensures Reached(At(LeftOver(), Resuming([FIRST], 0), [], 0))
  {
    hide Evaluate, Reconcile, ClaimRun, Act, Deliver, Run, Work;
    Planning0();
    var s0 := At(LeftOver(), Dispatching(Turn(1), RENEWING, WaitFor(false)), [], 0);
    Then(s0, Interrupt);
    assert Resumable(LeftOver(), FIRST, 0);
    Then(At(LeftOver(), Idle, [], 0), StartRun([FIRST]));
  }

  /** Some pass comes to a checkout that was quoted at zero. */
  lemma ZeroQuoteIsPlanned()
    ensures exists s, k: Key ::
      Reachable(s) && k in s.db.intents && s.db.intents[k].expected.minor == 0 && s.flight == Resuming([k], s.clock)
  {
    hide Reached, Reachable, Step, Run;
    Resuming0();
    var s := At(LeftOver(), Resuming([FIRST], 0), [], 0);
    ReachedIsReachable(s);
    assert FIRST in s.db.intents && s.db.intents[FIRST].expected.minor == 0;
  }

  /** Whatever happens later, it is never submitted, and every pass that comes to it ends there. */
  lemma ZeroQuoteStays(live: bool, paymentHost: string, first: seq<Event>, more: seq<Event>, k: Key, newMsg: MsgId)
    requires k in Run(Start(live, paymentHost), first).db.intents
    requires Run(Start(live, paymentHost), first).db.intents[k].expected.minor == 0
    ensures var s := Run(Start(live, paymentHost), first + more);
      && Wrote(k) !in s.log
      && (s.flight.Resuming? && s.flight.queue != [] && s.flight.queue[0] == k ==> Step(s, Proceed(newMsg)) == Go(s, Idle))
  {
    hide Step, Run;
    var s := Run(Start(live, paymentHost), first + more);
    RunPersists(live, paymentHost, first, more);
    assert Reachable(s);
    if s.flight.Resuming? { ZeroQuoteEndsThePass(s, k, s.flight.queue, s.flight.runNow, newMsg); }
    else { ZeroQuoteEndsThePass(s, k, [], 0, newMsg); }
  }
}
