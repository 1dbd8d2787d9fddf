/** When a payment link is sent in time, is it still the current one? */
module LateLinks {
  import opened Wrappers
  import opened Rows
  import opened Planning
  import opened Scheduling
  import opened Checkout
  import opened Environment
  import opened Mailbox
  import opened Engine
  import opened Invariants
  import opened EngineInv
  import opened History
  import opened Guarantees
  import opened MessageRuns
  import opened BookingStore
  import opened OutboxDelivery

  // ----- what the others do during a pass

  /** Anything but a step of the delivery worker itself; summaries are queued by the booking loop. */
  predicate ByOthers(e: Event) { !e.Outbox? || e.delivery.SummaryMail? }

  lemma OthersStep(s: Sys, e: Event)
    requires Reachable(s) && ByOthers(e)
    ensures OthersMay(s.db, Step(s, e).db)
  {
    hide Advance, Evaluate, Reconcile, ClaimRun, JudgeAnswer, Resume;
    StepKeepsOrders(s, e);
    if !e.Outbox? { StepMessages(s, e); }
  }

  lemma StepKeepsOrders(s: Sys, e: Event)
    requires Reachable(s)
    ensures forall k :: k in s.db.orders ==> k in Step(s, e).db.orders && Step(s, e).db.orders[k] == s.db.orders[k]
  {
    hide Step, Run;
    var live, paymentHost, events :| s == Run(Start(live, paymentHost), events);
    RunStepPersists(live, paymentHost, events, e);
  }

  /** Whatever booking, users and discovery do between two deliveries is what the delivery worker allows for. */
  lemma {:induction false} OthersRun(s: Sys, events: seq<Event>)
    requires Reachable(s) && forall i :: 0 <= i < |events| ==> ByOthers(events[i])
    ensures OthersMay(s.db, Run(s, events).db)
  {
    hide Step;
    if events != [] {
      var before := events[..|events| - 1];
      OthersRun(s, before);
      StillReachable(s, before);
      OthersStep(Run(s, before), events[|events| - 1]);
    }
  }

  // ----- a pass as a run

  /** What the others do before one delivery looks at the clock, and from then until it is recorded. */
  datatype Round = Round(early: seq<Event>, late: seq<Event>)

  function OwnEvents(x: Item, d: Handover): seq<Event> {
    if Own(x, d).Some? then [Outbox(Own(x, d).value)] else []
  }

  /** The steps of everybody during some deliveries. */
  function Turns(items: seq<Item>, deliveries: seq<Handover>, rounds: seq<Round>): seq<Event>
    requires |items| == |deliveries| == |rounds|
  {
    if items == [] then []
    else
      var n := |items| - 1;
      Turns(items[..n], deliveries[..n], rounds[..n]) + rounds[n].early + rounds[n].late + OwnEvents(items[n], deliveries[n])
  }

  /** What the deliveries find changed by others are the steps of these rounds. */
  ghost predicate Follows(s: Sys, items: seq<Item>, deliveries: seq<Handover>, rounds: seq<Round>)
    requires |items| == |deliveries| == |rounds|
  {
    items != [] ==>
      var n := |items| - 1;
      && Follows(s, items[..n], deliveries[..n], rounds[..n])
      && RoundIs(Run(s, Turns(items[..n], deliveries[..n], rounds[..n])), deliveries[n], rounds[n])
  }

  ghost predicate RoundIs(s: Sys, d: Handover, r: Round) {
    d.early(s.db) == Run(s, r.early).db && d.late(Run(s, r.early).db) == Run(Run(s, r.early), r.late).db
  }

  lemma RoundIsRun(s: Sys, x: Item, d: Handover, r: Round)
    requires RoundIs(s, d, r)
    ensures Handed(s.db, x, d) == Run(s, r.early + r.late + OwnEvents(x, d)).db
  {
    hide Step, Own;
    RunAppend(s, r.early, r.late);
    RunAppend(s, r.early + r.late, OwnEvents(x, d));
    var u := Run(s, r.early + r.late);
    if Own(x, d).Some? { OwnStep(u, Own(x, d).value); }
  }

  lemma OwnStep(s: Sys, y: Delivery)
    ensures Run(s, [Outbox(y)]).db == Deliver(s.db, y)
  {
    hide Advance, Evaluate, Reconcile, ClaimRun, Act, Deliver, JudgeAnswer;
    assert [Outbox(y)][..0] == [];
  }

  /** So the deliveries of a pass, and what everybody else does meanwhile, are a run of the whole system. */
  lemma {:induction false} DeliveriesAreRun(s: Sys, items: seq<Item>, deliveries: seq<Handover>, rounds: seq<Round>)
    requires |items| == |deliveries| == |rounds| && Follows(s, items, deliveries, rounds)
    ensures HandedAll(s.db, items, deliveries) == Run(s, Turns(items, deliveries, rounds)).db
  {
    hide Run, Handed, RoundIs, OwnEvents;
    if items != [] {
      var n := |items| - 1;
      var before := Turns(items[..n], deliveries[..n], rounds[..n]);
      var last := rounds[n].early + rounds[n].late + OwnEvents(items[n], deliveries[n]);
      DeliveriesAreRun(s, items[..n], deliveries[..n], rounds[..n]);
      RoundIsRun(Run(s, before), items[n], deliveries[n], rounds[n]);
      RunAppend(s, before, last);
      assert before + last == Turns(items, deliveries, rounds);
    } else {
      NoTurns(s);
    }
  }

  lemma NoTurns(s: Sys)
    ensures Run(s, []) == s
  {
    hide Step;
  }

  /** The steps a pass begins with: what was left half sent is returned, and what is due is claimed. */
  function Opening(interrupted: bool, now: Time, chosen: set<MsgId>): seq<Event> {
    (if interrupted then [Outbox(RecoverMail(now))] else []) + [Outbox(ClaimMail(now, chosen))]
  }

  lemma OpeningIsRun(s: Sys, interrupted: bool, now: Time, chosen: set<MsgId>)
    requires var queued := if interrupted then RecoverMessages(s.db, now) else s.db; forall m :: m in chosen ==> DueMessage(queued, m, now)
    ensures var queued := if interrupted then RecoverMessages(s.db, now) else s.db;
      Run(s, Opening(interrupted, now, chosen)).db == ClaimMessages(queued, now, chosen)
  {
    hide Step, Run, RecoverMessages, ClaimMessages, DueMessage;
    var first: seq<Event> := if interrupted then [Outbox(RecoverMail(now))] else [];
    NoTurns(s);
    if interrupted { OwnStep(s, RecoverMail(now)); }
    RunAppend(s, first, [Outbox(ClaimMail(now, chosen))]);
    OwnStep(Run(s, first), ClaimMail(now, chosen));
  }

  /** One pass of the delivery worker, with everybody else in between, is a run of the whole system. */
  lemma PassIsRun(s: Sys, interrupted: bool, now: Time, chosen: set<MsgId>, items: seq<Item>, deliveries: seq<Handover>, rounds: seq<Round>)
    requires |items| == |deliveries| == |rounds|
    requires var queued := if interrupted then RecoverMessages(s.db, now) else s.db; forall m :: m in chosen ==> DueMessage(queued, m, now)
    requires Follows(Run(s, Opening(interrupted, now, chosen)), items, deliveries, rounds)
    ensures var queued := if interrupted then RecoverMessages(s.db, now) else s.db;
      HandedAll(ClaimMessages(queued, now, chosen), items, deliveries)
      == Run(s, Opening(interrupted, now, chosen) + Turns(items, deliveries, rounds)).db
  {
    hide Step, Run, RecoverMessages, ClaimMessages, DueMessage, Follows, Turns, HandedAll, Opening;
    var opening := Opening(interrupted, now, chosen);
    OpeningIsRun(s, interrupted, now, chosen);
    DeliveriesAreRun(Run(s, opening), items, deliveries, rounds);
    RunAppend(s, opening, Turns(items, deliveries, rounds));
  }

  // ----- in time and current

  lemma ReachableDates(s: Sys)
    requires Reachable(s)
    ensures Dated(s.db.cycles, s.mark) && s.mark <= s.clock && Timing(s.db)
  {
    hide Step, Run;
    ReachableHolds(s);
  }

  /**
   An order whose link is looked at before the hold has been renewed is of the current cycle: no later cycle exists
   before the hold plus the interval.
   */
  lemma EarlyIsCurrent(s: Sys, k: Key, at: Time)
    requires Reachable(s) && k in s.db.orders && s.clock <= at
    ensures k.cand in s.db.cands && s.db.cands[k.cand].sub in s.db.subs
    ensures at < s.db.orders[k].heldAt + Settings(s.db, k.cand).interval ==> k.no == s.db.cands[k.cand].cycleNo
  {
    hide Step, Run;
    ReachableTables(s);
    assert k in s.db.cycles && CandidateInv(s.db, s.db.cands[k.cand]);
    if k.no < s.db.cands[k.cand].cycleNo {
      var n := Key(k.cand, k.no + 1);
      assert n in s.db.cycles;
      CyclesAreSpaced(s, k.cand, k.no);
      ReachableDates(s);
    }
  }

  /** So a link sent in time is the current one if it expires no later than the hold is renewed. */
  lemma InTimeIsCurrent(s: Sys, k: Key, at: Time)
    requires Reachable(s) && k in s.db.orders && s.clock <= at < s.db.orders[k].expiresAt
    ensures k.cand in s.db.cands && s.db.cands[k.cand].sub in s.db.subs
    ensures s.db.orders[k].expiresAt <= s.db.orders[k].heldAt + Settings(s.db, k.cand).interval
      ==> k.no == s.db.cands[k.cand].cycleNo
  {
    hide *;
    EarlyIsCurrent(s, k, at);
  }
}
