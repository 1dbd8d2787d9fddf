/** What the engine promises in every state that some run reaches. */
module Guarantees {
  import opened Wrappers
  import opened Rows
  import opened Planning
  import opened Scheduling
  import opened Checkout
  import opened Environment
  import opened Mailbox
  import opened Engine
  import opened Invariants
  import opened Preservation
  import opened PlanProof
  import opened EngineInv
  import opened EngineProof
  import opened EngineSteps
  import opened EnginePlan
  import opened EngineRuns
  import opened History

  ghost predicate Reachable(s: Sys) {
    exists live, paymentHost, events :: s == Run(Start(live, paymentHost), events)
  }

  lemma {:induction false} RunAppend(s: Sys, a: seq<Event>, b: seq<Event>)
    ensures Run(s, a + b) == Run(Run(s, a), b)
  {
    hide Step;
    if b == [] {
      assert a + b == a;
    } else {
      var c := b[..|b| - 1];
      assert (a + b)[..|a + b| - 1] == a + c;
      RunAppend(s, a, c);
    }
  }

  lemma StillReachable(s: Sys, trace: seq<Event>)
    requires Reachable(s)
    ensures Reachable(Run(s, trace))
  {
    hide Step, Run;
    var live, paymentHost, events :| s == Run(Start(live, paymentHost), events);
    RunAppend(Start(live, paymentHost), events, trace);
  }

  lemma ReachableHolds(s: Sys)
    requires Reachable(s)
    ensures SysInv(s)
  {
    hide Step, Run;
    var live, paymentHost, events :| s == Run(Start(live, paymentHost), events);
    RunKeeps(live, paymentHost, events);
  }

  lemma ReachableRow(s: Sys, k: Key)
    requires Reachable(s) && k in s.db.intents
    ensures RowsAt(s.db, k) && CandidateInv(s.db, s.db.cands[k.cand]) && Dated(s.db.cycles, s.clock)
  {
    hide Step, Run, Advance, Evaluate, Reconcile, ClaimRun, JudgeAnswer, Resume, Caps, Timing, SeatsDiffer, Mail;
    ReachableHolds(s);
  }

  // ----- no new cycle over an unsettled write

  /** A candidate that may be claimed or planned has no checkout in doubt. */
  lemma RunnableIsSettled(s: Sys, k: Key)
    requires Reachable(s) && k in s.db.intents
    ensures k.cand in s.db.cands
    ensures Runnable(s.db.cands[k.cand].state) || s.db.cands[k.cand].state.RenewalClaimed? ==> Settled(s.db.intents[k].state)
  {
    hide Step, Run;
    ReachableRow(s, k);
  }

  /** Whenever a cycle is planned, every earlier checkout of its candidate is confirmed or rejected, and released. */
  lemma PlannedOverSettled(s: Sys, e: Evaluation, k: Key)
    requires Reachable(s) && s.flight.Evaluating? && k in s.db.intents && k.cand == s.flight.task.cand
    ensures Evaluate(s, e).flight.Working? ==> Settled(s.db.intents[k].state) && k in s.db.allocs && !s.db.allocs[k].active
  {
    hide Step, Run;
    EvaluatingRests(s, k);
    RestIsSettled(s.db, k);
  }

  lemma EvaluatingRests(s: Sys, k: Key)
    requires Reachable(s) && s.flight.Evaluating? && k in s.db.intents && k.cand == s.flight.task.cand
    ensures AtRest(s.db, k.cand) && RowsAt(s.db, k)
  {
    hide Step, Run;
    ReachableTask(s);
    ReachableRow(s, k);
  }

  lemma ReachableTask(s: Sys)
    requires Reachable(s) && s.flight.Evaluating?
    ensures TaskReady(s.db, s.flight.task)
  {
    hide Step, Run;
    ReachableHolds(s);
  }

  /** A pending checkout was never opened, let alone written. */
  lemma PendingNeverWritten(s: Sys, k: Key)
    requires Reachable(s) && k in s.db.intents && s.db.intents[k].state.Pending?
    ensures s.db.intents[k].writeStartedAt.None? && Wrote(k) !in s.log
  {
    hide Step, Run;
    ReachableRow(s, k);
    ReachableLog(s);
  }

  lemma ReachableLog(s: Sys)
    requires Reachable(s)
    ensures LogMarks(s.db.intents, s.log)
  {
    hide Step, Run;
    ReachableHolds(s);
  }

  // ----- reservations

  /** A candidate holds at most one reservation, and it is the one of its current cycle. */
  lemma OneReservation(s: Sys, k: Key, n: Key)
    requires Reachable(s) && k in s.db.allocs && n in s.db.allocs && k.cand == n.cand
    requires s.db.allocs[k].active && s.db.allocs[n].active
    ensures k == n && k.cand in s.db.cands && k.no == s.db.cands[k.cand].cycleNo
  {
    hide Step, Run;
    ReachableHolds(s);
    assert RowsAt(s.db, k) && RowsAt(s.db, n);
  }

  /** A reservation was returned exactly when its cycle was released: by a refusal, or once a paid hold had run out. */
  lemma ReservationReturned(s: Sys, k: Key)
    requires Reachable(s) && k in s.db.allocs
    ensures k in s.db.cycles && k in s.db.intents && k.cand in s.db.cands && s.db.cands[k.cand].sub in s.db.subs
    ensures !s.db.allocs[k].active <==> s.db.cycles[k].releasedAt.Some?
    ensures !s.db.allocs[k].active ==>
      || s.db.intents[k].state.Rejected?
      || (&& s.db.intents[k].state.Confirmed? && k in s.db.orders
          && s.db.orders[k].heldAt + Settings(s.db, k.cand).interval <= s.db.cycles[k].releasedAt.value <= s.clock)
  {
    hide Step, Run;
    ReachableHolds(s);
    assert RowsAt(s.db, k);
  }

  // ----- limits

  /** The only subscription of a buyer bounds everything the buyer holds. */
  lemma BuyerLimits(s: Sys, n: SubId)
    requires Reachable(s) && n in s.db.subs
    requires forall m :: m in s.db.subs && s.db.subs[m].buyer == s.db.subs[n].buyer ==> m == n
    ensures var g := s.db.subs[n].config; var held := BuyerKeys(s.db.allocs, s.db.subs[n].buyer);
      && (g.maxActiveOrders.Some? ==> |held| <= g.maxActiveOrders.value)
      && (g.maxActiveTotal.Some? ==> Total(s.db.allocs, held) <= g.maxActiveTotal.value.minor)
  {
    hide Step, Run, FlightInv, Side, JobReady, PhaseReady, OriginReady, AllRows, RowsAt, RowInv;
    ReachableHolds(s);
    var g := s.db.subs[n].config;
    var b := s.db.subs[n].buyer;
    if g.maxActiveOrders.Some? { assert CountCap(s.db, b, g.maxActiveOrders.value); }
    if g.maxActiveTotal.Some? { assert TotalCap(s.db, b, g.maxActiveTotal.value.minor); }
  }

  /**
   Whatever a discovery batch is shared by, a bound that every subscription with candidates in it respects bounds
   everything held in it.
   */
  lemma BatchLimits(s: Sys, b: BatchId)
    requires Reachable(s)
    ensures forall t: nat :: BatchTotalCap(s.db, b, t) ==> Total(s.db.allocs, BatchKeys(s.db.allocs, b)) <= t
    ensures forall m: nat :: SessionCap(s.db, b, m) ==> |BatchSessions(s.db.allocs, s.db.cands, b)| <= m
  {
    hide Step, Run;
    ReachableHolds(s);
  }

  /**
   What is held for one subscription stays within its own limits on orders, amounts and amounts per batch, whoever
   else books for the same buyer or from the same batch.
   */
  lemma OwnLimits(s: Sys, n: SubId, b: BatchId)
    requires Reachable(s) && n in s.db.subs
    ensures var g := s.db.subs[n].config; var held := OwnKeys(s.db.allocs, s.db.cands, n);
      && (g.maxActiveOrders.Some? ==> |held| <= g.maxActiveOrders.value)
      && (g.maxActiveTotal.Some? ==> Total(s.db.allocs, held) <= g.maxActiveTotal.value.minor)
      && (g.maxBatchTotal.Some? ==>
            Total(s.db.allocs, OwnBatchKeys(s.db.allocs, s.db.cands, n, b)) <= g.maxBatchTotal.value.minor)
  {
    hide Step, Run;
    ReachableHolds(s);
    assert OwnCaps(s.db, n);
  }

  // ----- orders and their messages

  /** A checkout is confirmed iff it has an order; the order buys its seats for an amount within its bounds. */
  lemma ConfirmedHasOrder(s: Sys, k: Key)
    requires Reachable(s) && k in s.db.intents
    ensures k in s.db.allocs && k.cand in s.db.cands && s.db.cands[k.cand].sub in s.db.subs
    ensures s.db.intents[k].state.Confirmed? <==> k in s.db.orders
    ensures k in s.db.orders ==>
      var i, o := s.db.intents[k], s.db.orders[k];
      && o.seats == i.seats && i.expected.minor <= o.total.minor && o.total.currency == i.expected.currency
      && (Settings(s.db, k.cand).PriceUnlimited() || o.total.minor <= i.reserved.minor)
      && s.db.allocs[k].reserved == o.total.minor
  {
    hide Step, Run;
    ReachableRow(s, k);
    assert OrderAt(s.db, k) == if k in s.db.orders then Some(s.db.orders[k]) else None;
  }

  /** Every order has one payment message, and there is no payment message without an order. */
  lemma OnePaymentMessage(s: Sys)
    requires Reachable(s)
    ensures forall k :: k in s.db.orders ==> HasMail(s.db, k)
    ensures forall m :: m in s.db.msgs && s.db.msgs[m].kind.Payment? ==> s.db.msgs[m].kind.order in s.db.orders
    ensures forall k, m, n ::
      (m in s.db.msgs && n in s.db.msgs && IsPaymentOf(s.db.msgs[m], k) && IsPaymentOf(s.db.msgs[n], k)) ==> m == n
  {
    hide Step, Run;
    ReachableHolds(s);
    assert Mail(s.db);
  }

  /** Recording the same order again finds the same message and changes nothing. */
  lemma RecordReplays(db: Db, k: Key, o: Order, now: Time, newMsg: MsgId, later: Time, otherMsg: MsgId)
    requires Mail(db) && newMsg !in db.msgs && RecordOrder(db, k, o, now, newMsg).1.Recorded?
    ensures var (e, outcome) := RecordOrder(db, k, o, now, newMsg);
      RecordOrder(e, k, o, later, otherMsg) == (e, outcome)
  {
    var (e, outcome) := RecordOrder(db, k, o, now, newMsg);
    RecordMail(db, k, o, now, newMsg);
    RecordedPays(db, k, o, now, newMsg);
  }

  // ----- requests

  /**
   Of all the checks a request makes when it is constructed, only the one for a positive quote can fail; a checkout
   whose write was started passes it.
   */
  lemma RequestIsConstructible(s: Sys, k: Key)
    requires Reachable(s) && k in s.db.intents
    ensures k.cand in s.db.cands
    ensures LoadRequest(s.db, k).Valid() <==> s.db.intents[k].expected.minor > 0
    ensures s.db.intents[k].writeStartedAt.Some? ==> s.db.intents[k].expected.minor > 0
  {
    hide Step, Run, Dated;
    ReachableRow(s, k);
    ReachableTables(s);
    assert s.db.cands[k.cand].sub in s.db.subs && Settings(s.db, k.cand).Valid();
  }

  /** A checkout that was quoted at zero never reaches the provider, and a pass that comes to it ends there. */
  lemma ZeroQuoteEndsThePass(s: Sys, k: Key, queue: seq<Key>, runNow: Time, newMsg: MsgId)
    requires Reachable(s) && k in s.db.intents && s.db.intents[k].expected.minor == 0
    ensures Wrote(k) !in s.log
    ensures s.flight == Resuming(queue, runNow) && queue != [] && queue[0] == k ==> Step(s, Proceed(newMsg)) == Go(s, Idle)
  {
    hide Reachable, Work, Reconcile, Dispatch, Finalize, Reschedule, Evaluate, ClaimRun, JudgeAnswer, Run;
    RequestIsConstructible(s, k);
    ReachableLog(s);
  }

  lemma RecordedPays(db: Db, k: Key, o: Order, now: Time, newMsg: MsgId)
    requires RecordOrder(db, k, o, now, newMsg).1.Recorded?
    ensures var (e, outcome) := RecordOrder(db, k, o, now, newMsg);
      && outcome.msg in e.msgs && IsPaymentOf(e.msgs[outcome.msg], k) && k in e.orders && SameOrder(e.orders[k], o)
      && GraphExists(e, k) && e.cands[k.cand].buyer in e.buyers && OrderFits(e.intents[k], o) && HandoffComplete(o)
  {}

  // ----- validation and recording

  /**
   For a checkout without an order, what the validator accepts the recorder stores, as long as the reservation
   has not been returned; it is returned only after a refusal, and nothing else can stop the recorder.
   */
  lemma ValidatedIsRecorded(s: Sys, k: Key, o: Observation, now: Time, newMsg: MsgId)
    requires Reachable(s) && k in s.db.intents && k !in s.db.orders && newMsg !in s.db.msgs
    requires k.cand in s.db.cands && Validate(LoadRequest(s.db, k), o, s.paymentHost).Accepted?
    ensures k in s.db.allocs && (!s.db.allocs[k].active ==> s.db.intents[k].state.Rejected?)
    ensures var order := Validate(LoadRequest(s.db, k), o, s.paymentHost).order;
      RecordOrder(s.db, k, order, now, newMsg).1 == if s.db.allocs[k].active then Recorded(newMsg) else NoAllocation
  {
    hide Step, Run;
    ReachableRow(s, k);
    assert OrderAt(s.db, k).None?;
    ValidatedIsPayable(s.db, k, o, s.paymentHost);
  }

  /** A request rebuilt at any later time is the one first made, and so is the one a running checkout carries. */
  lemma RequestsAreRebuilt(live: bool, paymentHost: string, first: seq<Event>, more: seq<Event>, k: Key)
    requires k in Run(Start(live, paymentHost), first).db.intents
    ensures var s, u := Run(Start(live, paymentHost), first), Run(Start(live, paymentHost), first + more);
      && k.cand in s.db.cands && k in u.db.intents && k.cand in u.db.cands
      && LoadRequest(u.db, k) == LoadRequest(s.db, k)
      && (u.flight.Working? && u.flight.job.key == k ==> u.flight.job.request == LoadRequest(s.db, k))
  {
    hide Step, Run;
    var s, u := Run(Start(live, paymentHost), first), Run(Start(live, paymentHost), first + more);
    assert Reachable(s) && Reachable(u);
    ReachableRow(s, k);
    RunPersists(live, paymentHost, first, more);
    RunningRequest(u, k);
  }

  lemma RunningRequest(s: Sys, k: Key)
    requires Reachable(s) && k in s.db.intents
    ensures k.cand in s.db.cands
    ensures s.flight.Working? && s.flight.job.key == k ==> s.flight.job.request == LoadRequest(s.db, k)
  {
    hide Step, Run;
    if s.flight.Working? { ReachableJob(s); }
    ReachableRow(s, k);
  }

  lemma ReachableJob(s: Sys)
    requires Reachable(s) && s.flight.Working?
    ensures JobReady(s, s.flight.job)
  {
    hide Step, Run, Tables, CandidateInv, JobReady, PhaseReady, OriginReady, LogMarks, WritesAuthorised, Reservation, Progressing, Amounts;
    ReachableHolds(s);
  }

  // ----- individual seats

  /** Two slots of one buyer and session never have unrefused checkouts of the same seat. */
  lemma SeatsOfSlotsDiffer(s: Sys, k: Key, n: Key)
    requires Reachable(s) && k in s.db.intents && n in s.db.intents && k.cand != n.cand
    requires !s.db.intents[k].state.Rejected? && !s.db.intents[n].state.Rejected?
    ensures k.cand in s.db.cands && n.cand in s.db.cands
    ensures var a, b := s.db.cands[k.cand], s.db.cands[n.cand];
      a.buyer == b.buyer && a.session == b.session && a.ticketNo > 0 && b.ticketNo > 0 ==>
        && |s.db.intents[k].seats| == 1 && |s.db.intents[n].seats| == 1
        && s.db.intents[k].seats[0] != s.db.intents[n].seats[0]
  {
    hide Step, Run;
    ReachableRow(s, k);
    ReachableRow(s, n);
    ReachableSeats(s);
  }

  lemma ReachableSeats(s: Sys)
    requires Reachable(s)
    ensures SeatsDiffer(s.db)
  {
    hide Step, Run;
    ReachableHolds(s);
  }

  /** Once a slot has a confirmed order, every later checkout of the slot is for the same seat. */
  ghost predicate SeatKept(db: Db) {
    forall k, n :: k in db.orders && n in db.intents && Later(db, k, n) ==> SameSeat(db, k, n)
  }

  predicate Later(db: Db, k: Key, n: Key) {
    n.cand == k.cand && k.no < n.no && k.cand in db.cands && db.cands[k.cand].ticketNo > 0
  }

  predicate SameSeat(db: Db, k: Key, n: Key) {
    && k in db.intents && n in db.intents && db.intents[k].seats != [] && db.intents[n].seats != []
    && db.intents[n].seats[0] == db.intents[k].seats[0]
  }

  /** A new checkout starts at the seat of its slot, which is the seat of any order of the slot. */
  lemma NewSeat(e: Db, k: Key, n: Key)
    requires Tables(e) && AllRows(e) && k in e.orders && n in e.intents && Later(e, k, n) && !e.intents[n].state.Rejected?
    ensures SameSeat(e, k, n)
  {}

  lemma LaterSeat(d: Db, e: Db, k: Key, n: Key)
    requires Tables(d) && SeatKept(d) && Persists(d, e) && Adds(d, e)
    requires k in e.orders && n in d.intents && Later(e, k, n)
    ensures SameSeat(e, k, n)
  {
    assert n.cand in d.cands && n.no <= d.cands[n.cand].cycleNo;
    if k in d.orders {
      assert Later(d, k, n);
      assert SameSeat(d, k, n);
    } else {
      assert false;
    }
  }

  lemma {:induction false} RunSeatKept(live: bool, paymentHost: string, events: seq<Event>)
    ensures SeatKept(Run(Start(live, paymentHost), events).db)
  {
    hide Step;
    if events != [] {
      var before := events[..|events| - 1];
      var s, u := Run(Start(live, paymentHost), before), Run(Start(live, paymentHost), events);
      RunSeatKept(live, paymentHost, before);
      assert Reachable(s) && Reachable(u);
      RunStepPersists(live, paymentHost, before, events[|events| - 1]);
      ReachableTables(s);
      ReachableTables(u);
      forall k, n | k in u.db.orders && n in u.db.intents && Later(u.db, k, n) ensures SameSeat(u.db, k, n) {
        if n in s.db.intents { LaterSeat(s.db, u.db, k, n); } else { NewSeat(u.db, k, n); }
      }
    }
  }

  lemma ReachableTables(s: Sys)
    requires Reachable(s)
    ensures Tables(s.db) && AllRows(s.db)
  {
    hide Step, Run;
    ReachableHolds(s);
  }

  /** A confirmed order fixes the seat of its slot: later checkouts and later orders name it too. */
  lemma OrderFixesSeat(s: Sys, k: Key, n: Key)
    requires Reachable(s) && k in s.db.orders && n in s.db.intents && n.cand == k.cand && k.no < n.no
    ensures k.cand in s.db.cands
    ensures s.db.cands[k.cand].ticketNo > 0 ==>
      && s.db.orders[k].seats == s.db.intents[n].seats && |s.db.orders[k].seats| == 1
      && (n in s.db.orders ==> s.db.orders[n].seats == s.db.orders[k].seats)
  {
    hide Step, Run;
    var live, paymentHost, events :| s == Run(Start(live, paymentHost), events);
    RunSeatKept(live, paymentHost, events);
    ReachableTables(s);
    assert RowsAt(s.db, k) && RowsAt(s.db, n) && CandidateInv(s.db, s.db.cands[k.cand]);
    assert OrderAt(s.db, k) == Some(s.db.orders[k]);
    if n in s.db.orders { assert OrderAt(s.db, n) == Some(s.db.orders[n]); }
    if s.db.cands[k.cand].ticketNo > 0 { assert SameSeat(s.db, k, n); }
  }

  // ----- cycles

  /** The cycles of a candidate are 1 to its current number, each with one checkout and one reservation, within the limit. */
  lemma CyclesAreConsecutive(s: Sys, c: CandId, no: nat)
    requires Reachable(s) && c in s.db.cands
    ensures Key(c, no) in s.db.cycles <==> 1 <= no <= s.db.cands[c].cycleNo
    ensures Key(c, no) in s.db.intents <==> Key(c, no) in s.db.cycles
    ensures Key(c, no) in s.db.allocs <==> Key(c, no) in s.db.cycles
    ensures s.db.cands[c].sub in s.db.subs
    ensures Settings(s.db, c).maxCycles.Some? ==> s.db.cands[c].cycleNo <= Settings(s.db, c).maxCycles.value
  {
    hide Step, Run;
    ReachableHolds(s);
    assert CandidateInv(s.db, s.db.cands[c]);
    assert Key(c, no) in s.db.cycles <==> Key(c, no).cand in s.db.cands && 1 <= Key(c, no).no <= s.db.cands[c].cycleNo;
  }

  /** A cycle is planned no earlier than the previous hold plus the renewal interval. */
  lemma CyclesAreSpaced(s: Sys, c: CandId, no: nat)
    requires Reachable(s) && Key(c, no) in s.db.orders && Key(c, no + 1) in s.db.cycles
    ensures c in s.db.cands && s.db.cands[c].sub in s.db.subs
    ensures s.db.cycles[Key(c, no + 1)].createdAt >= s.db.orders[Key(c, no)].heldAt + Settings(s.db, c).interval
  {
    hide Step, Run;
    ReachableHolds(s);
    var k, n := Key(c, no), Key(c, no + 1);
    assert Follows(k, n);
    assert RowsAt(s.db, k) && RowsAt(s.db, n);
    assert n.cand in s.db.cands && n.no <= s.db.cands[n.cand].cycleNo;
  }

  /** However late it comes, one step plans at most one new cycle of a candidate. */
  lemma OneCyclePerStep(s: Sys, e: Event, k: Key, n: Key)
    requires Reachable(s) && k.cand == n.cand && k !in s.db.intents && n !in s.db.intents
    requires k in Step(s, e).db.intents && n in Step(s, e).db.intents
    ensures k == n
  {
    hide Step, Run;
    ReachableAdds(s, e);
  }

  lemma ReachableAdds(s: Sys, e: Event)
    requires Reachable(s)
    ensures Adds(s.db, Step(s, e).db)
  {
    hide Step, Run;
    var live, paymentHost, events :| s == Run(Start(live, paymentHost), events);
    RunStepPersists(live, paymentHost, events, e);
  }

  /** Every claimed candidate becomes exactly one task, or is stopped for good. */
  lemma ClaimedIsTaskOrStopped(db: Db, now: Time, chosen: set<CandId>, tasks: seq<Task>, c: CandId)
    requires (forall b :: b in chosen ==> Due(db, b, now)) && ClaimedTasks(db, now, chosen, tasks) && c in chosen
    ensures c in db.cands
    ensures var a := Claim(db, now, chosen).cands[c];
      && (a.state.Stopped? <==> forall i :: 0 <= i < |tasks| ==> tasks[i].cand != c)
      && (a.state.RenewalClaimed? <==> exists i :: 0 <= i < |tasks| && tasks[i].cand == c)
      && (a.state.Stopped? || a.state.RenewalClaimed?)
      && (forall i, j :: 0 <= i < |tasks| && 0 <= j < |tasks| && tasks[i].cand == c && tasks[j].cand == c ==> i == j)
  {}
}
