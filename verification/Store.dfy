/** The booking tables as one mutable object, and its transactions as methods that change it in place. */
module BookingStore {
  import opened Wrappers
  import opened Rows
  import opened Planning
  import opened Admission
  import opened Uptake
  import opened Scheduling
  import opened Checkout
  import opened Environment
  import opened Mailbox
  import opened Engine
  import opened Invariants
  import opened Preservation
  import opened PlanProof
  import opened EngineInv
  import opened EngineProof
  import opened EngineSteps
  import opened EngineWork
  import opened Repairs
  import opened Ordering
  import opened MessageRuns

  class Store {
    var buyers: map<BuyerId, Buyer>
    var subs: map<SubId, Subscription>
    var sessions: map<SessionId, Session>
    var cands: map<CandId, Candidate>
    var cycles: map<Key, Cycle>
    var intents: map<Key, Intent>
    var allocs: map<Key, Allocation>
    var orders: map<Key, Order>
    var msgs: map<MsgId, Message>

    constructor ()
      ensures View() == NoDb && Valid()
    {
      buyers, subs, sessions, cands, cycles := map[], map[], map[], map[], map[];
      intents, allocs, orders, msgs := map[], map[], map[], map[];
    }

    function View(): Db
      reads this
    {
      Db(buyers, subs, sessions, cands, cycles, intents, allocs, orders, msgs)
    }

    /** Foreign keys: a cycle has its candidate, its one intent and its one reservation, and orders belong to cycles. */
    ghost predicate Valid()
      reads this
    {
      Linked(View()) && Addressed(View())
    }

    // ----- planning

    /** The aggregate a query computes over the listed reservations. */
    method SumReserved(ks: set<Key>) returns (total: int)
      requires ks <= allocs.Keys
      ensures total == Total(allocs, ks)
    {
      total := 0;
      var todo := ks;
      while todo != {}
        invariant todo <= ks && total + Total(allocs, todo) == Total(allocs, ks)
        decreases todo
      {
        var k :| k in todo;
        TotalPick(allocs, todo, k);
        total := total + allocs[k].reserved;
        todo := todo - {k};
      }
    }

    /** The checks of a plan that look at what is already held: None admits it. */
    method CheckLimits(r: PlanRequest) returns (refusal: Option<PlanOutcome>)
      requires r.cand in cands
      ensures refusal == if NoRoom(View(), r) then Some(LimitReached) else if OverBudget(View(), r) then Some(BudgetFull) else None
    {
      refusal := FindRefusal(r);
      hide *;
      RoomIsChecked(View(), r);
      BudgetIsChecked(View(), r);
    }

    method FindRefusal(r: PlanRequest) returns (refusal: Option<PlanOutcome>)
      requires r.cand in cands
      ensures var a := cands[r.cand];
        refusal == if SessionLimitHit(View(), a, r.config) then Some(LimitReached)
                   else if BudgetHit(View(), a, r) then Some(BudgetFull) else None
    {
      var a, g := cands[r.cand], r.config;
      var used := BatchSessions(allocs, cands, a.batch);
      if a.session !in used && g.maxSessionsPerBatch.Some? && |used| >= g.maxSessionsPerBatch.value {
        return Some(LimitReached);
      }
      var held := BuyerKeys(allocs, a.buyer);
      var total := SumReserved(held);
      if (g.maxActiveOrders.Some? && |held| >= g.maxActiveOrders.value)
         || (g.maxActiveTotal.Some? && total + r.reserved.minor > g.maxActiveTotal.value.minor) {
        return Some(BudgetFull);
      }
      var batchTotal := SumReserved(BatchKeys(allocs, a.batch));
      if g.maxBatchTotal.Some? && batchTotal + r.reserved.minor > g.maxBatchTotal.value.minor {
        return Some(BudgetFull);
      }
      return None;
    }

    /** The outcome is exactly the one the rows call for, and so are the new tables; a raised error changes nothing. */
    method PlanCycle(r: PlanRequest) returns (outcome: PlanOutcome)
      requires r.config.Valid()
      modifies this
      ensures (View(), outcome) == Plan(old(View()), r)
      ensures Answers(old(View()), r, outcome) && Leaves(old(View()), View(), r, outcome)
    {
      ghost var db := View();
      outcome := TryPlan(r);
      hide *;
      PlanAnswers(db, r);
      PlanLeaves(db, r);
    }

    method TryPlan(r: PlanRequest) returns (outcome: PlanOutcome)
      requires r.config.Valid()
      modifies this
      ensures (View(), outcome) == Plan(old(View()), r)
    {
      if !r.WellFormed() { return Raised; }
      if !Claimable(View(), r) {
        return if r.cand !in cands || cands[r.cand].sub != r.sub then NotFound else AlreadyActive;
      }
      var a := cands[r.cand];
      if SlotRaises(a, r) { return Raised; }
      if r.config.individual && Occupied(View(), r.cand, r.seats[0]) {
        cands := cands[r.cand := Touched(a, r, WaitingAvailability)];
        return SeatUnavailable;
      }
      RoomIsChecked(View(), r);
      BudgetIsChecked(View(), r);
      var refusal := CheckLimits(r);
      if refusal.Some? {
        cands := cands[r.cand := Touched(a, r, if refusal.value.LimitReached? then SkippedLimit else WaitingBudget)];
        return refusal.value;
      }
      InsertCycle(r);
      return Planned(a.cycleNo + 1);
    }

    /** The new cycle, its pending intent and its reservation are inserted, and the candidate moves on to it. */
    method InsertCycle(r: PlanRequest)
      requires r.cand in cands && r.WellFormed() && r.config.Valid()
      modifies this
      ensures View() == WithCycle(old(View()), r)
    {
      var a := cands[r.cand];
      var k := Key(r.cand, a.cycleNo + 1);
      cycles := cycles[k := Cycle(CycleSubmitting, None, r.now, None, r.now, None)];
      intents := intents[k := Intent(Pending, r.seats, r.reserved, r.Quoted(), r.config.holdTtl,
                                     r.config.PriceUnlimited(), None, r.now)];
      allocs := allocs[k := Allocation(a.buyer, a.batch, r.cand, r.reserved.minor, true)];
      a := Touched(a, r, a.state).(cycleNo := a.cycleNo + 1);
      if r.config.individual { a := a.(target := Some(r.seats[0])); }
      a := a.(state := Submitting);
      cands := cands[r.cand := a];
    }

    // ----- the renewal scheduler

    method ReleaseElapsedAllocations(now: Time)
      modifies this`cycles, this`allocs
      ensures View() == ReleaseElapsed(old(View()), now)
    {
      hide ReleasedSoFar;
      ghost var db := View();
      var elapsed := set k | k in cycles && Elapsed(cycles[k], now);
      var todo := elapsed;
      assert elapsed - todo == {};
      NothingReleased(db, now);
      while todo != {}
        invariant todo <= elapsed && View() == db.(cycles := cycles, allocs := allocs)
        invariant ReleasedSoFar(db, now, elapsed - todo, cycles, allocs)
        decreases todo
      {
        var k :| k in todo;
        ReleasedHas(db, now, elapsed - todo, cycles, allocs, k);
        ReleasedOneMore(db, now, elapsed - todo, cycles, allocs, k);
        ReleaseOne(k, now);
        assert elapsed - (todo - {k}) == elapsed - todo + {k};
        todo := todo - {k};
      }
      assert elapsed - todo == elapsed;
      ReleasedAll(db, now, elapsed, cycles, allocs);
    }

    method ReleaseOne(k: Key, now: Time)
      requires k in cycles
      modifies this`cycles, this`allocs
      ensures cycles == old(cycles)[k := ReleasedCycle(old(cycles[k]), now)]
      ensures allocs == if k in old(allocs) then old(allocs)[k := old(allocs[k]).(active := false)] else old(allocs)
    {
      if k in allocs && allocs[k].active { allocs := allocs[k := allocs[k].(active := false)]; }
      assert k in allocs && !old(allocs)[k].active ==> old(allocs)[k := old(allocs)[k].(active := false)] == old(allocs);
      cycles := cycles[k := ReleasedCycle(cycles[k], now)];
    }

    /** The first due candidates, at most `limit` of them, are claimed; each one becomes a task, in order, or is stopped. */
    method ClaimDueCandidates(now: Time, limit: nat) returns (tasks: seq<Task>, ghost chosen: set<CandId>)
      requires limit > 0
      modifies this
      ensures |chosen| <= limit && |tasks| <= limit
      ensures |chosen| < limit ==> forall c :: MayRun(old(View()), c, now) ==> c in chosen
      ensures forall c, d :: c in chosen && d !in chosen && MayRun(old(View()), d, now) ==> GoesBefore(old(cands), c, d)
      ensures forall i, j :: 0 <= i < j < |tasks| ==> GoesBefore(old(cands), tasks[i].cand, tasks[j].cand)
      ensures TakesUp(old(View()), View(), chosen, tasks, now)
      ensures View() == Claim(old(View()), now, chosen) && ClaimedTasks(old(View()), now, chosen, tasks)
      ensures forall c :: c in chosen ==> Due(old(View()), c, now)
    {
      ghost var db := View();
      tasks, chosen := ClaimDueRows(now, limit);
      hide Due, MayRun, Claim, TakesUp, ClaimedTasks;
      forall c ensures Due(db, c, now) <==> MayRun(db, c, now) { DueExactly(db, c, now); }
      ClaimTakesUp(db, chosen, tasks, now);
      ChosenInOrder(db, chosen, now);
      TasksGoBefore(db, now, chosen, tasks);
    }

    method ClaimDueRows(now: Time, limit: nat) returns (tasks: seq<Task>, ghost chosen: set<CandId>)
      requires limit > 0
      modifies this
      ensures |chosen| <= limit && |tasks| <= limit
      ensures forall c :: c in chosen ==> Due(old(View()), c, now)
      ensures |chosen| < limit ==> forall c :: Due(old(View()), c, now) ==> c in chosen
      ensures forall c, d :: c in chosen && d !in chosen && Due(old(View()), d, now) ==> DueOrder(old(cands))(c, d)
      ensures TasksInOrder(tasks, DueOrder(old(cands)))
      ensures View() == Claim(old(View()), now, chosen) && ClaimedTasks(old(View()), now, chosen, tasks)
    {
      hide Claimed, ReleaseElapsed, Due, ClaimedTasks, TasksInOrder, Orders;
      ghost var db := View();
      ReleaseElapsedAllocations(now);
      ghost var released := View();
      var due := set c | c in cands && Due(View(), c, now);
      var order := DueOrder(cands);
      DueOrders(cands);
      var claimed := Take(due, limit, order);
      chosen := claimed;
      DueUnreleased(db, now);
      ClaimRows(claimed);
      tasks := MakeTasks(claimed, now, order, released);
      ReleasedTasks(db, now, chosen, tasks);
    }

    /** The update that claims the listed rows together. */
    method ClaimRows(claimed: set<CandId>)
      requires forall c :: c in claimed ==> c in cands && cands[c].sub in subs
      modifies this`cands
      ensures View() == old(View()).(cands := cands)
      ensures forall now :: PartlyClaimed(old(View()), now, claimed, claimed, cands)
    {
      cands := map c | c in cands :: if c in claimed then cands[c].(state := RenewalClaimed) else cands[c];
    }

    /** The first rows of a query with a limit. */
    method Take(ids: set<int>, limit: nat, order: (int, int) -> bool) returns (taken: set<int>)
      requires Orders(order)
      ensures taken <= ids && |taken| <= limit && (|taken| < limit ==> taken == ids)
      ensures forall a, b :: a in taken && b in ids && b !in taken ==> order(a, b)
    {
      taken := {};
      var rest := ids;
      while rest != {} && |taken| < limit
        invariant taken + rest == ids && taken !! rest && |taken| <= limit
        invariant forall a, b :: a in taken && b in rest ==> order(a, b)
        decreases rest
      {
        var c := Least(rest, order);
        rest, taken := rest - {c}, taken + {c};
      }
    }

    /** The loop over the claimed rows. */
    method MakeTasks(claimed: set<CandId>, now: Time, order: (CandId, CandId) -> bool, ghost before: Db) returns (tasks: seq<Task>)
      requires View() == before.(cands := cands) && Orders(order)
      requires PartlyClaimed(before, now, claimed, claimed, cands)
      modifies this`cands
      ensures View() == Claimed(before, now, claimed)
      ensures ClaimedTasks(before, now, claimed, tasks) && |tasks| <= |claimed|
      ensures TasksInOrder(tasks, order)
    {
      hide Making, PartlyClaimed, ClaimedTasks, TasksInOrder, Claimed, Orders;
      tasks := [];
      var todo := claimed;
      MakingStarts(before, now, claimed, View(), order);
      while todo != {}
        invariant Making(before, now, claimed, todo, View(), tasks, order) && |tasks| + |todo| <= |claimed|
        decreases todo
      {
        var c := Least(todo, order);
        tasks := MakeNext(tasks, c, now, order, claimed, todo, before);
        todo := todo - {c};
      }
      MakingEnds(before, now, claimed, View(), tasks, order);
    }

    method MakeNext(tasks: seq<Task>, c: CandId, now: Time, ghost order: (CandId, CandId) -> bool, ghost claimed: set<CandId>,
        ghost todo: set<CandId>, ghost before: Db)
      returns (more: seq<Task>)
      requires Making(before, now, claimed, todo, View(), tasks, order) && c in todo && forall d :: d in todo ==> order(c, d)
      modifies this`cands
      ensures Making(before, now, claimed, todo - {c}, View(), more, order) && |more| <= |tasks| + 1
    {
      assert PartlyRow(before, now, claimed, todo, c, cands[c]);
      PartlyStep(before, now, claimed, todo, cands, c);
      var task := ClaimRow(c, now);
      TasksGrow(before, now, claimed - todo, tasks, c, task);
      OrderGrows(tasks, todo, order, c, task);
      assert claimed - (todo - {c}) == claimed - todo + {c};
      more := if task.Some? then tasks + [task.value] else tasks;
    }

    /** A claimed candidate with nothing left to do is stopped. */
    method ClaimRow(c: CandId, now: Time) returns (task: Option<Task>)
      requires c in cands && cands[c].sub in subs && cands[c].state == RenewalClaimed
      modifies this`cands
      ensures View() == Put(old(View()), c, ClaimedRow(old(cands[c]), subs[old(cands[c].sub)].config, now))
      ensures var a := old(cands[c]); var g := subs[a.sub].config;
        task == if Finished(a, g, now) then None else Some(MakeTask(c, a.sub, a.cycleNo, g))
    {
      var a, g := cands[c], subs[cands[c].sub].config;
      task := None;
      if a.watchUntil.Some? && a.watchUntil.value <= now {
        cands := cands[c := Halted(a)];
      } else if g.maxCycles.Some? && a.cycleNo >= g.maxCycles.value {
        cands := cands[c := Halted(a)];
      } else {
        task := Some(MakeTask(c, a.sub, a.cycleNo, g));
        assert cands == cands[c := a];
      }
    }

    method ScheduleHold(t: Task, no: nat, heldAt: Time) returns (outcome: ScheduleOutcome)
      requires Valid()
      modifies this`cands, this`cycles
      ensures (View(), outcome) == ScheduleAfterHold(old(View()), t, no, heldAt)
      ensures Valid()
    {
      ghost var db := View();
      if no != t.prev + 1 { return WrongCycle; }
      var k := Key(t.cand, no);
      ScheduleParts(db, t, no, heldAt);
      if t.cand !in cands || k !in cycles || cands[t.cand].cycleNo != no { return NotCurrent; }
      var y, a := cycles[k].(startedAt := heldAt, dueAt := Some(heldAt + t.interval)), cands[t.cand];
      if a.state.Stopped? {
        y := y.(state := CycleHeld);
      } else if t.maxCycles.Some? && no >= t.maxCycles.value {
        y, a := y.(state := CycleHeld), Halted(a);
      } else {
        y, a := y.(state := CycleRenewal), a.(state := RenewalWaiting, nextRunAt := y.dueAt);
      }
      assert y == Held(Read(db, k), t, no, heldAt).cycle && a == Held(Read(db, k), t, no, heldAt).cand;
      SaveHold(k, y, a);
      return Scheduled;
    }

    method SaveHold(k: Key, y: Cycle, a: Candidate)
      requires Valid() && k in cycles
      modifies this`cands, this`cycles
      ensures View() == old(View()).(cands := old(cands)[k.cand := a], cycles := old(cycles)[k := y]) && Valid()
    {
      ghost var db := View();
      cycles, cands := cycles[k := y], cands[k.cand := a];
      SameKeys(db, View());
    }

    method Wait(t: Task, budget: bool, now: Time)
      modifies this`cands
      ensures View() == ScheduleWait(old(View()), t, budget, now)
    {
      if t.cand !in cands || cands[t.cand].cycleNo != t.prev { return; }
      var a := cands[t.cand];
      var due := now + t.retry;
      if a.watchUntil.Some? && due >= a.watchUntil.value {
        cands := cands[t.cand := Halted(a)];
      } else {
        cands := cands[t.cand := a.(state := if budget then WaitingBudget else WaitingAvailability, nextRunAt := Some(due))];
      }
    }

    method BlockTask(t: Task)
      requires Valid()
      modifies this`cands, this`cycles
      ensures View() == MarkNeedsAttention(old(View()), t)
      ensures Valid()
    {
      hide Read, Write, Linked, Addressed;
      ghost var db := View();
      if t.cand !in cands { return; }
      var a := cands[t.cand];
      var k := Key(t.cand, a.cycleNo);
      BlockParts(db, t);
      BlockedLinked(db, t);
      cands := cands[t.cand := Blocked(a)];
      if a.cycleNo != 0 && k in cycles && a.state != RenewalClaimed {
        cycles := cycles[k := cycles[k].(state := CycleAttention)];
      }
    }

    method Stop(c: CandId)
      modifies this`cands
      ensures View() == StopByUser(old(View()), c)
    {
      if c in cands { cands := cands[c := Halted(cands[c])]; }
    }

    method Release(t: Task)
      modifies this`cands
      ensures View() == ReleaseClaim(old(View()), t)
    {
      if t.cand in cands && cands[t.cand].state == RenewalClaimed && cands[t.cand].cycleNo == t.prev {
        cands := cands[t.cand := cands[t.cand].(state := Queued, nextRunAt := None)];
      }
    }

    /** Claims left by a crashed process become runnable again. */
    method RecoverRenewals()
      modifies this`cands
      ensures View() == RecoverClaims(old(View())) && cands.Keys == old(cands).Keys
      ensures forall c :: c in cands ==> var a := old(cands)[c];
        cands[c] == if a.state == RenewalClaimed then a.(state := Queued, nextRunAt := None) else a
    {
      cands := map c | c in cands ::
        if cands[c].state == RenewalClaimed then cands[c].(state := Queued, nextRunAt := None) else cands[c];
    }

    // ----- checkouts

    /** The milestone of a checkout is committed before the checkout goes on. */
    method RecordMilestone(k: Key, stage: Stage, now: Time)
      requires Valid()
      modifies this`intents
      ensures View() == RecordStage(old(View()), k, stage, now)
      ensures Valid()
    {
      if k !in intents { return; }
      ghost var db := View();
      WriteParts(db, k, StagedGraph(Read(db, k), stage, now));
      var i := intents[k];
      if stage.WriteStarted? && i.writeStartedAt.None? {
        i := i.(writeStartedAt := Some(now), state := WriteOpen);
      } else if stage.StageValidated? {
        i := i.(state := Validated);
      } else if stage.StageRejected? {
        i := i.(state := Rejected);
      } else if stage.StageUserAction? {
        i := i.(state := RequiresUserAction);
      } else if stage.StageAmbiguous? {
        i := i.(state := Unknown);
      }
      if i != intents[k] { intents := intents[k := i]; }
    }

    /** A confirmed order and its payment message are written together, once. */
    method RecordConfirmedOrder(k: Key, o: Order, now: Time, newMsg: MsgId) returns (outcome: RecordOutcome)
      requires Valid() && newMsg !in msgs
      modifies this
      ensures (View(), outcome) == RecordOrder(old(View()), k, o, now, newMsg)
      ensures Valid()
    {
      if k !in intents || cands[k.cand].buyer !in buyers { return RecordLookup; }
      if !OrderFits(intents[k], o) { return Mismatch; }
      if !HandoffComplete(o) { return RecordOutcome.Incomplete; }
      if k in orders {
        if !SameOrder(orders[k], o) { return DifferentOrder; }
        var mail := set m | m in msgs && IsPaymentOf(msgs[m], k);
        NotEmpty(mail);
        if HasMail(View(), k) {
          ghost var m :| m in msgs && IsPaymentOf(msgs[m], k);
          assert m in mail;
        }
        if mail == {} { return RecordLookup; }
        var m :| m in mail;
        return Recorded(m);
      }
      if !allocs[k].active { return NoAllocation; }
      ghost var db := View();
      InsertOrder(k, o, now, newMsg);
      AddedOrder(db, View(), k, newMsg);
      return Recorded(newMsg);
    }

    method InsertOrder(k: Key, o: Order, now: Time, newMsg: MsgId)
      requires Valid() && newMsg !in msgs && k in intents && k !in orders && cands[k.cand].buyer in buyers
      modifies this
      ensures GraphExists(old(View()), k)
      ensures var b := old(cands[k.cand].buyer);
        View() == Write(old(View()), k, ConfirmedGraph(Read(old(View()), k), o)).(
          msgs := old(msgs)[newMsg := Message(Payment(k), b, old(buyers[b].chat), MsgPending, 0, now, now, None)])
    {
      hide Write, Linked, Addressed;
      ghost var db := View();
      LinkedGraph(db, k);
      WriteOrder(db, k, ConfirmedGraph(Read(db, k), o));
      var b := cands[k.cand].buyer;
      allocs := allocs[k := allocs[k].(reserved := o.total.minor)];
      orders := orders[k := o];
      msgs := msgs[newMsg := Message(Payment(k), b, buyers[b].chat, MsgPending, 0, now, now, None)];
      intents := intents[k := intents[k].(state := Confirmed)];
      cycles := cycles[k := cycles[k].(state := CyclePaid)];
      var a := cands[k.cand];
      cands := cands[k.cand := a.(state := if a.state.Stopped? then Stopped else AwaitingPayment)];
    }

    /** A definite refusal returns the reservation, and the seat of a slot that no order has fixed. */
    method RejectCheckout(k: Key, now: Time, retry: int, stop: bool)
      requires Valid()
      modifies this
      ensures View() == RejectIntent(old(View()), k, now, retry, stop)
      ensures Valid()
    {
      hide Write, Linked, Addressed, HasOrder;
      if k !in intents { return; }
      ghost var db := View();
      LinkedGraph(db, k);
      var ordered := HasOrder(View(), k.cand);
      ghost var h := RefusedGraph(Read(db, k), ordered, now, retry, stop);
      WriteFour(db, k, h);
      var y, a := cycles[k], cands[k.cand];
      if allocs[k].active {
        allocs := allocs[k := allocs[k].(active := false)];
        y := y.(releasedAt := Some(now));
      }
      assert allocs == db.allocs[k := h.alloc] && h.order == OrderAt(db, k);
      intents := intents[k := intents[k].(state := Rejected)];
      cycles := cycles[k := y.(state := CycleRejected, endedAt := Some(now))];
      if a.ticketNo > 0 && !ordered { a := a.(target := None); }
      if stop {
        a := Halted(a);
      } else {
        a := a.(state := WaitingAvailability, nextRunAt := Some(now + retry));
      }
      assert a == h.cand;
      cands := cands[k.cand := a];
      WriteLinked(db, k, h);
    }

    method CheckoutNeedsAttention(k: Key, error: ErrorCode)
      requires Valid()
      modifies this`intents, this`cycles, this`cands
      ensures View() == IntentNeedsAttention(old(View()), k, error)
      ensures Valid()
    {
      hide Write, Linked, Addressed, BlockSiblings;
      if k !in intents { return; }
      ghost var db := View();
      LinkedGraph(db, k);
      WriteThree(db, k, DoubtfulGraph(Read(db, k)));
      var a := cands[k.cand];
      intents := intents[k := intents[k].(state := Unknown)];
      cycles := cycles[k := cycles[k].(state := CycleAttention)];
      cands := cands[k.cand := Blocked(a)];
      SameKeys(db, View());
      if Broadcasts(error) { BlockSiblingSlots(a); }
    }

    /** Slots of the same buyer and session that have not started anything are blocked by one update. */
    method BlockSiblingSlots(a: Candidate)
      requires Valid()
      modifies this`cands
      ensures View() == BlockSiblings(old(View()), a) && Valid()
    {
      hide Linked, Addressed;
      SiblingsLinked(View(), a);
      cands := map c | c in cands :: if Sibling(a, cands[c]) then Blocked(cands[c]) else cands[c];
    }

    // ----- recovery

    method ApplyOutcome(k: Key, d: Disposition)
      requires Valid()
      modifies this`intents, this`cycles, this`cands
      ensures View() == ApplyRecovery(old(View()), k, d)
      ensures Valid()
    {
      hide Write, Linked, Addressed;
      if k !in intents { return; }
      ghost var db := View();
      LinkedGraph(db, k);
      ghost var h := Resolved(Read(db, k), d);
      WriteThree(db, k, h);
      var i, y, a := intents[k], cycles[k], cands[k.cand];
      match d {
        case AllowRetry =>
          i := i.(state := if i.writeStartedAt.None? then Pending else RetryAllowed);
          y := y.(state := CycleSubmitting);
          if !a.state.Stopped? && !a.state.Paused? { a := a.(state := Submitting); }
        case ConfirmFound(_) =>
          i, y, a := i.(state := Validated), y.(state := CycleSubmitting), a.(state := Submitting);
        case Block(_) =>
          i, y, a := i.(state := Unknown), y.(state := CycleAttention), a.(state := NeedsAttention);
      }
      assert i == h.intent && y == h.cycle && a == h.cand && h.order == OrderAt(db, k);
      intents, cycles, cands := intents[k := i], cycles[k := y], cands[k.cand := a];
      WriteLinked(db, k, h);
    }

    /** The rows of a query in its order. */
    method List(all: set<Key>, order: (Key, Key) -> bool) returns (keys: seq<Key>)
      requires Orders(order)
      ensures Lists(keys, all) && InOrder(keys, order)
    {
      keys := [];
      var rest := all;
      while rest != {}
        invariant rest <= all && Lists(keys, all - rest) && InOrder(keys, order)
        invariant forall i, k :: 0 <= i < |keys| && k in rest ==> order(keys[i], k)
        decreases rest
      {
        var k := Least(rest, order);
        keys, rest := keys + [k], rest - {k};
      }
      assert all - rest == all;
    }

    /** At most `limit` checkouts that may be written for the first time, or again. */
    method ListResumableCheckouts(limit: nat, now: Time) returns (keys: seq<Key>)
      requires limit > 0
      ensures ListsResumable(View(), keys, now) && |keys| <= limit && InOrder(keys, CreationOrder(intents))
      ensures |keys| < limit ==> forall k :: k in intents && Resumable(View(), k, now) ==> k in keys
      ensures forall i, k ::
        (0 <= i < |keys| && k in intents && Resumable(View(), k, now) && k !in keys) ==> CreatedBefore(intents, keys[i], k)
    {
      var all := set k | k in intents && Resumable(View(), k, now);
      CreationOrders(intents);
      var list := List(all, CreationOrder(intents));
      keys := if |list| > limit then list[..limit] else list;
      FirstInOrder(list, CreationOrder(intents), |keys|);
    }

    /** Every unfinished checkout, with whether its write was started. */
    method ListUnfinished() returns (rows: seq<Engine.Incomplete>)
      ensures ListsIncomplete(View(), rows)
      ensures forall k :: IsOpen(View(), k) <==> exists i :: 0 <= i < |rows| && rows[i].key == k
      ensures forall i, j :: 0 <= i < j < |rows| ==> intents[rows[i].key].createdAt <= intents[rows[j].key].createdAt
    {
      CreationOrders(intents);
      var all := set k | k in intents && Unfinished(intents[k].state);
      var keys := List(all, CreationOrder(intents));
      rows := seq(|keys|, i requires 0 <= i < |keys| && keys[i] in intents reads this =>
        Engine.Incomplete(keys[i], intents[keys[i]].writeStartedAt.Some?));
      forall k | k in intents && Unfinished(intents[k].state) ensures exists i :: 0 <= i < |rows| && rows[i].key == k {
        assert k in keys;
        var i :| 0 <= i < |keys| && keys[i] == k;
        assert rows[i].key == k;
      }
    }

    /** Every confirmed cycle that lost its schedule is scheduled, and none of them is turned away. */
    method RecoverUnscheduled() returns (count: nat)
      requires Valid() && Repairable(View(), UnscheduledKeys(View()))
      modifies this
      ensures View() == Repaired(old(View()), old(UnscheduledKeys(View())))
      ensures count == |old(UnscheduledKeys(View()))| && Valid()
      ensures forall k :: k in old(UnscheduledKeys(View())) <==> LacksSchedule(old(View()), k)
    {
      ghost var db := View();
      var all := UnscheduledKeys(View());
      count := |all|;
      var todo := all;
      while todo != {}
        invariant Valid() && Repairable(View(), todo) && Repaired(View(), todo) == Repaired(db, all)
        decreases todo
      {
        var k :| k in todo;
        RepairNext(View(), k, todo);
        var outcome := ScheduleHold(TaskOf(View(), k), k.no, orders[k].heldAt);
        assert outcome.Scheduled?;
        todo := todo - {k};
      }
      NothingRepaired(View());
    }

    /** What other workers and users have committed meanwhile. */
    method Become(db: Db)
      modifies this
      ensures View() == db
    {
      buyers, subs, sessions, cands, cycles := db.buyers, db.subs, db.sessions, db.cands, db.cycles;
      intents, allocs, orders, msgs := db.intents, db.allocs, db.orders, db.msgs;
    }

    // ----- the outbox

    method RecoverSending(now: Time)
      modifies this`msgs
      ensures View() == RecoverMessages(old(View()), now) && msgs.Keys == old(msgs).Keys
      ensures forall m :: m in msgs ==>
        msgs[m] == if old(msgs)[m].state.MsgSending? then old(msgs)[m].(state := MsgRetry, nextAttemptAt := now) else old(msgs)[m]
    {
      msgs := map m | m in msgs ::
        if msgs[m].state.MsgSending? then msgs[m].(state := MsgRetry, nextAttemptAt := now) else msgs[m];
    }

    /** The first due messages, at most `limit` of them, are claimed; each one that may be sent becomes an item. */
    method ClaimDueMessages(now: Time, limit: nat) returns (items: seq<Item>, ghost chosen: set<MsgId>)
      requires limit > 0
      modifies this`msgs
      ensures |chosen| <= limit && |items| <= limit && forall m :: m in chosen ==> DueMessage(old(View()), m, now)
      ensures |chosen| < limit ==> forall m :: DueMessage(old(View()), m, now) ==> m in chosen
      ensures forall m, n :: m in chosen && n !in chosen && DueMessage(old(View()), n, now) ==> AttemptBefore(old(msgs), m, n)
      ensures View() == ClaimMessages(old(View()), now, chosen)
      ensures ItemsOf(old(View()), items, ToSend(old(View()), now, chosen)) && ItemsInOrder(items, MadeOrder(old(msgs)))
    {
      ghost var db := View();
      var order := MadeOrder(msgs);
      MessageOrders(msgs);
      var due := set m | m in msgs && DueMessage(View(), m, now);
      var claimed := Take(due, limit, AttemptOrder(msgs));
      chosen := claimed;
      ClaimMessageRows(claimed);
      items := BuildItems(claimed, now, order, db);
    }

    method ClaimMessageRows(claimed: set<MsgId>)
      requires claimed <= msgs.Keys
      modifies this`msgs
      ensures View() == old(View()).(msgs := msgs)
      ensures forall now :: PartlySorted(old(View()), now, claimed, claimed, msgs)
    {
      msgs := map m | m in msgs ::
        if m in claimed then msgs[m].(attempts := msgs[m].attempts + 1, state := MsgSending) else msgs[m];
    }

    /** The loop over the claimed messages. */
    method BuildItems(claimed: set<MsgId>, now: Time, order: (MsgId, MsgId) -> bool, ghost before: Db) returns (items: seq<Item>)
      requires Orders(order) && View() == before.(msgs := msgs) && PartlySorted(before, now, claimed, claimed, msgs)
      modifies this`msgs
      ensures View() == ClaimMessages(before, now, claimed)
      ensures ItemsOf(before, items, ToSend(before, now, claimed)) && |items| <= |claimed| && ItemsInOrder(items, order)
    {
      hide Building, PartlySorted, ItemsInOrder, ItemsBefore, ItemsOf, Orders, ToSend, ClaimMessages;
      items := [];
      var todo := claimed;
      BuildingStarts(before, now, claimed, View(), order);
      while todo != {}
        invariant Building(before, now, claimed, todo, View(), items) && |items| + |todo| <= |claimed|
        invariant ItemsInOrder(items, order) && ItemsBefore(items, todo, order)
        decreases todo
      {
        var m := Least(todo, order);
        var more := BuildNext(items, m, now, claimed, todo, before);
        ItemsOrdered(items, todo, order, m, more);
        items, todo := more, todo - {m};
      }
      BuildingEnds(before, now, claimed, View(), items);
    }

    method BuildNext(items: seq<Item>, m: MsgId, now: Time, ghost claimed: set<MsgId>, ghost todo: set<MsgId>, ghost before: Db)
      returns (more: seq<Item>)
      requires Building(before, now, claimed, todo, View(), items) && m in todo
      modifies this`msgs
      ensures Building(before, now, claimed, todo - {m}, View(), more) && |more| <= |items| + 1
      ensures more == items || (|more| == |items| + 1 && more[..|items|] == items && more[|items|].msg == m)
    {
      hide ItemsOf, ToSend, PartlySorted, ClaimState, IsItem;
      SortStep(before, now, claimed, todo, msgs, m);
      RowItem(before, now, claimed, todo, msgs, m);
      var item := BuildItem(m, now);
      BuildStep(before, now, claimed, todo, items, m, item);
      more := if item.Some? then items + [item.value] else items;
    }

    /** A claimed message becomes an item to send, or is closed for good. */
    method BuildItem(m: MsgId, now: Time) returns (item: Option<Item>)
      requires m in msgs && msgs[m].state.MsgSending?
      modifies this`msgs
      ensures msgs == old(msgs)[m := old(msgs[m]).(state := ClaimState(old(View()), old(msgs[m]), now))]
      ensures item.Some? <==> ClaimState(old(View()), old(msgs[m]), now).MsgSending?
      ensures item.Some? ==> msgs[m].buyer in buyers && item.value == ItemFor(old(View()), m, old(msgs[m]))
    {
      var row := msgs[m];
      item := None;
      if row.buyer !in buyers {
        msgs := msgs[m := row.(state := MsgRejected)];
        return;
      }
      if row.kind.Payment? {
        var k := row.kind.order;
        if !PaymentJoins(View(), k) {
          msgs := msgs[m := row.(state := MsgRejected)];
          return;
        }
        if k.no != cands[k.cand].cycleNo {
          msgs := msgs[m := row.(state := MsgSuperseded)];
          return;
        }
        if orders[k].expiresAt <= now {
          msgs := msgs[m := row.(state := MsgExpired)];
          return;
        }
        item := Some(Item(m, row.chat, buyers[row.buyer].user, Some(orders[k].expiresAt), row.attempts));
      } else {
        item := Some(Item(m, row.chat, buyers[row.buyer].user, None, row.attempts));
      }
      assert msgs == msgs[m := row];
    }

    /** Only a message that is being sent can be finished. */
    method FinishMessage(m: MsgId, state: MessageState, telegramId: Option<int>)
      modifies this`msgs
      ensures View() == Finish(old(View()), m, state, telegramId)
    {
      if m in msgs && msgs[m].state.MsgSending? {
        msgs := msgs[m := msgs[m].(state := state, telegramId := telegramId)];
      }
    }

    method ScheduleRetry(m: MsgId, at: Time)
      modifies this`msgs
      ensures View() == RetryMessage(old(View()), m, at)
    {
      if m in msgs && msgs[m].state.MsgSending? {
        msgs := msgs[m := msgs[m].(state := MsgRetry, nextAttemptAt := at)];
      }
    }

    /** The one summary of the batch for the buyer: the one that is there, or a new one. */
    method EnqueueBatchSummary(b: BatchId, buyer: BuyerId, now: Time, newMsg: MsgId) returns (r: Option<MsgId>)
      requires newMsg !in msgs
      modifies this`msgs
      ensures View() == EnqueueSummary(old(View()), b, buyer, now, newMsg)
      ensures r.Some? <==> buyer in buyers
      ensures r.Some? ==> r.value in msgs && IsSummaryOf(msgs[r.value], b, buyer)
      ensures r.Some? && OneSummary(old(msgs)) ==> forall m :: m in msgs && IsSummaryOf(msgs[m], b, buyer) ==> m == r.value
    {
      if buyer !in buyers { return None; }
      var existing := set m | m in msgs && IsSummaryOf(msgs[m], b, buyer);
      NotEmpty(existing);
      if existing != {} {
        var m :| m in existing;
        return Some(m);
      }
      assert forall m :: m in msgs ==> m !in existing;
      msgs := msgs[newMsg := Message(Summary(b), buyer, buyers[buyer].chat, MsgPending, 0, now, now, None)];
      return Some(newMsg);
    }

    // ----- users

    /** Once changed, nothing planned for the settings read before goes through; a paused one is neither due nor resumed. */
    method SetSubscriptionEnabled(n: SubId, enabled: bool) returns (ok: bool)
      modifies this`subs
      ensures View() == SetEnabled(old(View()), n, enabled)
      ensures ok <==> n in old(subs) && !old(subs)[n].deleted
      ensures ok ==> Outdated(View(), n, old(subs)[n].version)
      ensures ok && !enabled ==> Withdrawn(View(), n)
    {
      if n !in subs || subs[n].deleted { return false; }
      subs := subs[n := subs[n].(enabled := enabled, version := subs[n].version + 1)];
      return true;
    }

    /** A deleted subscription is neither due nor resumed nor planned. */
    method Delete(n: SubId) returns (ok: bool)
      modifies this`subs
      ensures View() == DeleteSubscription(old(View()), n)
      ensures ok <==> n in old(subs) && !old(subs)[n].deleted
      ensures ok ==> Withdrawn(View(), n)
    {
      if n !in subs || subs[n].deleted { return false; }
      subs := subs[n := subs[n].(enabled := false, deleted := true, version := subs[n].version + 1)];
      return true;
    }
  }

  predicate IsSummaryOf(m: Message, b: BatchId, buyer: BuyerId) { m.kind == Summary(b) && m.buyer == buyer }

  /** A plan made for this version of the subscription, or an older one, is refused. */
  ghost predicate Outdated(db: Db, n: SubId, version: nat) {
    forall r: PlanRequest :: r.sub == n && r.version.Some? && r.version.value <= version ==> !Claimable(db, r)
  }

  /** Nothing is claimed, resumed or planned for the subscription. */
  ghost predicate Withdrawn(db: Db, n: SubId) {
    && (forall c, now :: Due(db, c, now) ==> db.cands[c].sub != n)
    && (forall k, now :: Resumable(db, k, now) ==> db.cands[k.cand].sub != n)
    && (forall r :: Claimable(db, r) ==> r.sub != n)
  }

  /** Scheduling a hold writes one cycle and one candidate. */
  lemma ScheduleParts(db: Db, t: Task, no: nat, heldAt: Time)
    requires Linked(db) && no == t.prev + 1
    ensures var k := Key(t.cand, no);
      ScheduleAfterHold(db, t, no, heldAt) ==
      if k !in db.cycles || db.cands[t.cand].cycleNo != no then (db, NotCurrent)
      else var h := Held(Read(db, k), t, no, heldAt);
        (db.(cands := db.cands[t.cand := h.cand], cycles := db.cycles[k := h.cycle]), Scheduled)
  {
    var k := Key(t.cand, no);
    if k in db.cycles { WriteTwo(db, k, Held(Read(db, k), t, no, heldAt)); }
  }

  lemma BlockParts(db: Db, t: Task)
    requires Linked(db) && t.cand in db.cands
    ensures var a := db.cands[t.cand]; var k := Key(t.cand, a.cycleNo);
      MarkNeedsAttention(db, t) == db.(
        cands := db.cands[t.cand := Blocked(a)],
        cycles := if k in db.cycles && a.state != RenewalClaimed then db.cycles[k := db.cycles[k].(state := CycleAttention)]
                  else db.cycles)
  {
    var k := Key(t.cand, db.cands[t.cand].cycleNo);
    if k in db.cycles { WriteTwo(db, k, BlockedGraph(Read(db, k))); }
  }

  lemma RepairNext(db: Db, k: Key, todo: set<Key>)
    requires Repairable(db, todo) && k in todo
    ensures RepairableAt(db, k) && Repairable(db, {k})
    ensures ScheduleAfterHold(db, TaskOf(db, k), k.no, db.orders[k].heldAt) == (Repaired(db, {k}), Scheduled)
    ensures Repairable(Repaired(db, {k}), todo - {k}) && Repaired(Repaired(db, {k}), todo - {k}) == Repaired(db, todo)
  {
    assert RepairableAt(db, k);
    assert todo - {k} + {k} == todo;
    RepairMore(db, k, todo - {k});
    RepairIsSchedulable(db, k);
    HoldIsUnscheduled(db, TaskOf(db, k), k.no, db.orders[k].heldAt);
  }

  lemma OrderExactly(cands: map<CandId, Candidate>, a: CandId, b: CandId)
    requires a in cands && b in cands
    ensures DueBefore(cands, a, b) <==> GoesBefore(cands, a, b)
  {}

  lemma ChosenInOrder(db: Db, chosen: set<CandId>, now: Time)
    requires forall c, d :: c in chosen && d !in chosen && Due(db, d, now) ==> DueOrder(db.cands)(c, d)
    requires forall c :: c in chosen ==> Due(db, c, now)
    ensures forall c, d :: c in chosen && d !in chosen && Due(db, d, now) ==> GoesBefore(db.cands, c, d)
  {
    hide DueBefore, GoesBefore;
    forall c, d | c in chosen && d !in chosen && Due(db, d, now) ensures GoesBefore(db.cands, c, d) { OrderExactly(db.cands, c, d); }
  }

  lemma TasksGoBefore(db: Db, now: Time, chosen: set<CandId>, tasks: seq<Task>)
    requires TasksInOrder(tasks, DueOrder(db.cands)) && ClaimedTasks(db, now, chosen, tasks)
    ensures forall i, j :: 0 <= i < j < |tasks| ==> GoesBefore(db.cands, tasks[i].cand, tasks[j].cand)
  {
    hide DueBefore, GoesBefore;
    forall i, j | 0 <= i < j < |tasks| ensures GoesBefore(db.cands, tasks[i].cand, tasks[j].cand) {
      assert Claims(db, now, chosen, tasks[i]) && Claims(db, now, chosen, tasks[j]);
      OrderExactly(db.cands, tasks[i].cand, tasks[j].cand);
    }
  }

  ghost predicate TasksInOrder(tasks: seq<Task>, order: (CandId, CandId) -> bool) {
    forall i, j :: 0 <= i < j < |tasks| ==> order(tasks[i].cand, tasks[j].cand)
  }

  ghost predicate Behind(tasks: seq<Task>, todo: set<CandId>, order: (CandId, CandId) -> bool) {
    forall i, c :: 0 <= i < |tasks| && c in todo ==> order(tasks[i].cand, c)
  }

  /** The candidates of `todo` are still claimed as they were; the others have their tasks, in order. */
  ghost predicate Making(db: Db, now: Time, claimed: set<CandId>, todo: set<CandId>, view: Db, tasks: seq<Task>,
    order: (CandId, CandId) -> bool)
  {
    && todo <= claimed && view == db.(cands := view.cands) && PartlyClaimed(db, now, claimed, todo, view.cands)
    && ClaimedTasks(db, now, claimed - todo, tasks) && TasksInOrder(tasks, order) && Behind(tasks, todo, order)
  }

  lemma MakingStarts(db: Db, now: Time, claimed: set<CandId>, view: Db, order: (CandId, CandId) -> bool)
    requires view == db.(cands := view.cands) && PartlyClaimed(db, now, claimed, claimed, view.cands)
    ensures Making(db, now, claimed, claimed, view, [], order)
  {
    assert claimed - claimed == {};
  }

  lemma MakingEnds(db: Db, now: Time, claimed: set<CandId>, view: Db, tasks: seq<Task>, order: (CandId, CandId) -> bool)
    requires Making(db, now, claimed, {}, view, tasks, order)
    ensures view == Claimed(db, now, claimed) && ClaimedTasks(db, now, claimed, tasks) && TasksInOrder(tasks, order)
  {
    hide PartlyClaimed, ClaimedTasks, TasksInOrder;
    assert claimed - {} == claimed;
    ClaimedRows(db, now, claimed, view.cands);
  }

  lemma OrderGrows(tasks: seq<Task>, todo: set<CandId>, order: (CandId, CandId) -> bool, c: CandId, task: Option<Task>)
    requires TasksInOrder(tasks, order) && Behind(tasks, todo, order) && c in todo && forall d :: d in todo ==> order(c, d)
    requires task.Some? ==> task.value.cand == c
    ensures var more := if task.Some? then tasks + [task.value] else tasks;
      TasksInOrder(more, order) && Behind(more, todo - {c}, order)
  {}

  /** Due candidates come in the order of their due times, those without one first, then of their tickets and ids. */
  predicate DueBefore(cands: map<CandId, Candidate>, a: CandId, b: CandId) {
    var x, y := DueKey(cands, a), DueKey(cands, b);
    || x.0 < y.0
    || (x.0 == y.0 && (x.1 < y.1 || (x.1 == y.1 && (x.2 < y.2 || (x.2 == y.2 && a <= b)))))
  }

  function DueKey(cands: map<CandId, Candidate>, c: CandId): (int, int, int) {
    if c !in cands then (0, 0, 0)
    else if cands[c].nextRunAt.None? then (0, 0, cands[c].ticketNo)
    else (1, cands[c].nextRunAt.value, cands[c].ticketNo)
  }

  function DueOrder(cands: map<CandId, Candidate>): (CandId, CandId) -> bool { (a, b) => DueBefore(cands, a, b) }

  lemma DueOrders(cands: map<CandId, Candidate>)
    ensures Orders(DueOrder(cands))
  {}

  /** Due messages come in the order of their due times, then of their creation. */
  predicate AttemptBefore(msgs: map<MsgId, Message>, a: MsgId, b: MsgId) {
    var x, y := AttemptKey(msgs, a), AttemptKey(msgs, b);
    x.0 < y.0 || (x.0 == y.0 && x.1 <= y.1)
  }

  function AttemptKey(msgs: map<MsgId, Message>, m: MsgId): (int, int) {
    if m in msgs then (msgs[m].nextAttemptAt, msgs[m].createdAt) else (0, 0)
  }

  function AttemptOrder(msgs: map<MsgId, Message>): (MsgId, MsgId) -> bool { (a, b) => AttemptBefore(msgs, a, b) }

  /** Claimed messages are sent in the order of their creation, then of their ids. */
  predicate MadeBefore(msgs: map<MsgId, Message>, a: MsgId, b: MsgId) {
    AttemptKey(msgs, a).1 < AttemptKey(msgs, b).1 || (AttemptKey(msgs, a).1 == AttemptKey(msgs, b).1 && a <= b)
  }

  function MadeOrder(msgs: map<MsgId, Message>): (MsgId, MsgId) -> bool { (a, b) => MadeBefore(msgs, a, b) }

  lemma MessageOrders(msgs: map<MsgId, Message>)
    ensures Orders(AttemptOrder(msgs)) && Orders(MadeOrder(msgs))
  {}

  ghost predicate ItemsInOrder(items: seq<Item>, order: (MsgId, MsgId) -> bool) {
    forall i, j :: 0 <= i < j < |items| ==> order(items[i].msg, items[j].msg)
  }

  ghost predicate ItemsBefore(items: seq<Item>, todo: set<MsgId>, order: (MsgId, MsgId) -> bool) {
    forall i, m :: 0 <= i < |items| && m in todo ==> order(items[i].msg, m)
  }

  lemma ItemsOrdered(items: seq<Item>, todo: set<MsgId>, order: (MsgId, MsgId) -> bool, m: MsgId, more: seq<Item>)
    requires ItemsInOrder(items, order) && ItemsBefore(items, todo, order) && m in todo && forall n :: n in todo ==> order(m, n)
    requires more == items || (|more| == |items| + 1 && more[..|items|] == items && more[|items|].msg == m)
    ensures ItemsInOrder(more, order) && ItemsBefore(more, todo - {m}, order)
  {}

  predicate CreatedBefore(intents: map<Key, Intent>, a: Key, b: Key) { CreatedAt(intents, a) <= CreatedAt(intents, b) }

  function CreatedAt(intents: map<Key, Intent>, k: Key): Time { if k in intents then intents[k].createdAt else 0 }

  function CreationOrder(intents: map<Key, Intent>): (Key, Key) -> bool { (a, b) => CreatedBefore(intents, a, b) }

  lemma CreationOrders(intents: map<Key, Intent>)
    ensures Orders(CreationOrder(intents))
  {}

  lemma FirstInOrder(list: seq<Key>, order: (Key, Key) -> bool, n: nat)
    requires InOrder(list, order) && n <= |list|
    ensures InOrder(list[..n], order)
    ensures forall i, k :: 0 <= i < n && k in list && k !in list[..n] ==> order(list[i], k)
  {
    forall i | 0 <= i < n ensures list[i] in list[..n] { assert list[..n][i] == list[i]; }
    forall i, k | 0 <= i < n && k in list && k !in list[..n] ensures order(list[i], k) {
      var j :| 0 <= j < |list| && list[j] == k;
    }
  }

  lemma NotEmpty(s: set<int>)
    ensures s != {} ==> exists x :: x in s
  {
    if forall x :: x !in s { assert s == {}; }
  }

  ghost predicate Linked(db: Db) {
    && db.intents.Keys == db.cycles.Keys && db.allocs.Keys == db.cycles.Keys && db.orders.Keys <= db.cycles.Keys
    && (forall k :: k in db.cycles ==> k.cand in db.cands && k.no >= 1)
  }

  /** A payment message has its order, and an order has at most one of them. */
  ghost predicate Addressed(db: Db) {
    && (forall m :: m in db.msgs && db.msgs[m].kind.Payment? ==> db.msgs[m].kind.order in db.orders)
    && (forall m, n ::
          (m in db.msgs && n in db.msgs && db.msgs[m].kind.Payment? && db.msgs[m].kind == db.msgs[n].kind) ==> m == n)
  }

  /** The invariant of the engine contains the constraints of the tables. */
  lemma TablesLinked(db: Db)
    requires Tables(db) && Mail(db)
    ensures Linked(db) && Addressed(db)
  {}

  /** Tasks only depend on candidates and subscriptions, which the release leaves alone. */
  lemma ReleasedTasks(db: Db, now: Time, chosen: set<CandId>, tasks: seq<Task>)
    requires ClaimedTasks(ReleaseElapsed(db, now), now, chosen, tasks)
    ensures ClaimedTasks(db, now, chosen, tasks)
  {}

  lemma DueUnreleased(db: Db, now: Time)
    ensures forall c :: Due(ReleaseElapsed(db, now), c, now) <==> Due(db, c, now)
    ensures forall c :: Due(db, c, now) ==> c in db.cands && db.cands[c].sub in db.subs
  {}

  function ClaimedRow(a: Candidate, g: Config, now: Time): Candidate {
    if Finished(a, g, now) then Halted(a) else a.(state := RenewalClaimed)
  }

  /** The rows of `todo` are only claimed so far; the other claimed rows are settled. */
  ghost predicate PartlyClaimed(db: Db, now: Time, claimed: set<CandId>, todo: set<CandId>, cands: map<CandId, Candidate>) {
    && cands.Keys == db.cands.Keys
    && (forall c :: c in claimed ==> c in db.cands && db.cands[c].sub in db.subs)
    && (forall c :: c in cands ==> PartlyRow(db, now, claimed, todo, c, cands[c]))
  }

  ghost predicate PartlyRow(db: Db, now: Time, claimed: set<CandId>, todo: set<CandId>, c: CandId, a: Candidate) {
    && c in db.cands
    && (c !in claimed ==> a == db.cands[c])
    && (c in claimed && c in todo ==> a == db.cands[c].(state := RenewalClaimed))
    && (c in claimed && c !in todo ==>
          db.cands[c].sub in db.subs && a == ClaimedRow(db.cands[c], db.subs[db.cands[c].sub].config, now))
  }

  lemma PartlyStep(db: Db, now: Time, claimed: set<CandId>, todo: set<CandId>, cands: map<CandId, Candidate>, c: CandId)
    requires PartlyClaimed(db, now, claimed, todo, cands) && c in todo && todo <= claimed
    ensures c in cands && c in db.cands && cands[c].sub in db.subs
    ensures PartlyClaimed(db, now, claimed, todo - {c}, cands[c := ClaimedRow(cands[c], db.subs[cands[c].sub].config, now)])
  {}

  lemma ClaimedRows(db: Db, now: Time, claimed: set<CandId>, cands: map<CandId, Candidate>)
    requires PartlyClaimed(db, now, claimed, {}, cands)
    ensures cands == Claimed(db, now, claimed).cands
  {
    var goal := Claimed(db, now, claimed).cands;
    forall c | c in cands ensures cands[c] == goal[c] { assert PartlyRow(db, now, claimed, {}, c, cands[c]); }
  }

  /** A message as it was claimed, with the recipient and the expiry read then. */
  datatype Item = Item(msg: MsgId, chat: int, user: int, expiresAt: Option<Time>, attempts: nat)

  function ItemFor(db: Db, m: MsgId, row: Message): Item
    requires row.buyer in db.buyers
  {
    Item(m, row.chat, db.buyers[row.buyer].user,
         if row.kind.Payment? && row.kind.order in db.orders then Some(db.orders[row.kind.order].expiresAt) else None,
         row.attempts)
  }

  /** The item of message `m` claimed from these tables. */
  predicate IsItem(db: Db, x: Item) {
    && x.msg in db.msgs && db.msgs[x.msg].buyer in db.buyers
    && x == ItemFor(db, x.msg, db.msgs[x.msg].(attempts := db.msgs[x.msg].attempts + 1))
  }

  /** One item for each of these messages. */
  ghost predicate ItemsOf(db: Db, items: seq<Item>, ms: set<MsgId>) {
    && (forall i :: 0 <= i < |items| ==> items[i].msg in ms && IsItem(db, items[i]))
    && (forall i, j :: 0 <= i < j < |items| ==> items[i].msg != items[j].msg)
    && (forall m :: m in ms ==> exists i :: 0 <= i < |items| && items[i].msg == m)
  }

  /** The messages of `todo` are still to be sorted; the others have their items. */
  ghost predicate Building(db: Db, now: Time, claimed: set<MsgId>, todo: set<MsgId>, view: Db, items: seq<Item>) {
    && todo <= claimed && view == db.(msgs := view.msgs) && PartlySorted(db, now, claimed, todo, view.msgs)
    && ItemsOf(db, items, ToSend(db, now, claimed - todo))
  }

  lemma BuildingStarts(db: Db, now: Time, claimed: set<MsgId>, view: Db, order: (MsgId, MsgId) -> bool)
    requires view == db.(msgs := view.msgs) && PartlySorted(db, now, claimed, claimed, view.msgs)
    ensures Building(db, now, claimed, claimed, view, []) && ItemsInOrder([], order) && ItemsBefore([], claimed, order)
  {
    assert claimed - claimed == {};
  }

  lemma BuildingEnds(db: Db, now: Time, claimed: set<MsgId>, view: Db, items: seq<Item>)
    requires Building(db, now, claimed, {}, view, items)
    ensures view == ClaimMessages(db, now, claimed) && ItemsOf(db, items, ToSend(db, now, claimed))
  {
    assert claimed - {} == claimed;
    SortedAll(db, now, claimed, view.msgs);
  }

  lemma RowItem(db: Db, now: Time, claimed: set<MsgId>, todo: set<MsgId>, msgs: map<MsgId, Message>, m: MsgId)
    requires PartlySorted(db, now, claimed, todo, msgs) && m in todo && todo <= claimed
    ensures m in db.msgs && m in msgs && msgs[m].buyer == db.msgs[m].buyer
    ensures msgs[m].buyer in db.buyers ==> IsItem(db, ItemFor(db.(msgs := msgs), m, msgs[m]))
  {
    assert SortedRow(db, now, claimed, todo, m, msgs[m]);
  }

  lemma BuildStep(db: Db, now: Time, claimed: set<MsgId>, todo: set<MsgId>, items: seq<Item>, m: MsgId, item: Option<Item>)
    requires todo <= claimed && m in todo && m in db.msgs && ItemsOf(db, items, ToSend(db, now, claimed - todo))
    requires item.Some? <==> ClaimState(db, db.msgs[m], now).MsgSending?
    requires item.Some? ==> item.value.msg == m && IsItem(db, item.value)
    ensures ItemsOf(db, if item.Some? then items + [item.value] else items, ToSend(db, now, claimed - (todo - {m})))
  {
    SendGrows(db, now, claimed - todo, m);
    assert claimed - (todo - {m}) == claimed - todo + {m};
    ItemsGrow(db, items, ToSend(db, now, claimed - todo), m, item);
  }

  lemma ItemsGrow(db: Db, items: seq<Item>, ms: set<MsgId>, m: MsgId, item: Option<Item>)
    requires ItemsOf(db, items, ms) && m !in ms && (item.Some? ==> item.value.msg == m && IsItem(db, item.value))
    ensures ItemsOf(db, if item.Some? then items + [item.value] else items, if item.Some? then ms + {m} else ms)
  {
    if item.Some? {
      var more := items + [item.value];
      forall n | n in ms + {m} ensures exists i :: 0 <= i < |more| && more[i].msg == n {
        if n == m {
          assert more[|items|].msg == m;
        } else {
          var i :| 0 <= i < |items| && items[i].msg == n;
          assert more[i].msg == n;
        }
      }
    }
  }

  /** The listed messages that claiming lets through. */
  function ToSend(db: Db, now: Time, ms: set<MsgId>): set<MsgId> {
    set m | m in ms && m in db.msgs && ClaimState(db, db.msgs[m], now).MsgSending?
  }

  /** The messages of `todo` are only claimed so far; the other claimed messages are sorted by what may be sent. */
  ghost predicate PartlySorted(db: Db, now: Time, claimed: set<MsgId>, todo: set<MsgId>, msgs: map<MsgId, Message>) {
    && msgs.Keys == db.msgs.Keys && claimed <= db.msgs.Keys
    && (forall m :: m in msgs ==> SortedRow(db, now, claimed, todo, m, msgs[m]))
  }

  ghost predicate SortedRow(db: Db, now: Time, claimed: set<MsgId>, todo: set<MsgId>, m: MsgId, row: Message) {
    && m in db.msgs
    && row == (if m !in claimed then db.msgs[m]
               else db.msgs[m].(attempts := db.msgs[m].attempts + 1,
                                state := if m in todo then MsgSending else ClaimState(db, db.msgs[m], now)))
  }

  lemma SendGrows(db: Db, now: Time, handled: set<MsgId>, m: MsgId)
    requires m in db.msgs && m !in handled
    ensures ToSend(db, now, handled + {m})
         == ToSend(db, now, handled) + if ClaimState(db, db.msgs[m], now).MsgSending? then {m} else {}
  {}

  lemma SortStep(db: Db, now: Time, claimed: set<MsgId>, todo: set<MsgId>, msgs: map<MsgId, Message>, m: MsgId)
    requires PartlySorted(db, now, claimed, todo, msgs) && m in todo && todo <= claimed
    ensures m in msgs && ClaimState(db.(msgs := msgs), msgs[m], now) == ClaimState(db, db.msgs[m], now)
    ensures msgs[m].state.MsgSending?
    ensures PartlySorted(db, now, claimed, todo - {m}, msgs[m := msgs[m].(state := ClaimState(db.(msgs := msgs), msgs[m], now))])
  {}

  lemma SortedAll(db: Db, now: Time, claimed: set<MsgId>, msgs: map<MsgId, Message>)
    requires PartlySorted(db, now, claimed, {}, msgs)
    ensures msgs == ClaimMessages(db, now, claimed).msgs
  {
    var goal := ClaimMessages(db, now, claimed).msgs;
    forall m | m in msgs ensures msgs[m] == goal[m] { assert SortedRow(db, now, claimed, {}, m, msgs[m]); }
  }

  /** These cycles are closed and their reservations returned; the others are as before. */
  ghost predicate ReleasedSoFar(db: Db, now: Time, done: set<Key>, cycles: map<Key, Cycle>, allocs: map<Key, Allocation>) {
    && cycles.Keys == db.cycles.Keys && allocs.Keys == db.allocs.Keys && done <= db.cycles.Keys
    && (forall k :: k in cycles ==> cycles[k] == if k in done then ReleasedCycle(db.cycles[k], now) else db.cycles[k])
    && (forall k :: k in allocs ==> allocs[k] == if k in done then db.allocs[k].(active := false) else db.allocs[k])
  }

  lemma NothingReleased(db: Db, now: Time)
    ensures ReleasedSoFar(db, now, {}, db.cycles, db.allocs)
  {}

  lemma ReleasedHas(db: Db, now: Time, done: set<Key>, cycles: map<Key, Cycle>, allocs: map<Key, Allocation>, k: Key)
    requires ReleasedSoFar(db, now, done, cycles, allocs) && k in db.cycles
    ensures k in cycles
  {}

  lemma ReleasedOneMore(db: Db, now: Time, done: set<Key>, cycles: map<Key, Cycle>, allocs: map<Key, Allocation>, k: Key)
    requires ReleasedSoFar(db, now, done, cycles, allocs) && k in cycles && k !in done
    ensures ReleasedSoFar(db, now, done + {k}, cycles[k := ReleasedCycle(cycles[k], now)],
      if k in allocs then allocs[k := allocs[k].(active := false)] else allocs)
  {}

  lemma ReleasedAll(db: Db, now: Time, elapsed: set<Key>, cycles: map<Key, Cycle>, allocs: map<Key, Allocation>)
    requires elapsed == (set k | k in db.cycles && Elapsed(db.cycles[k], now)) && ReleasedSoFar(db, now, elapsed, cycles, allocs)
    ensures db.(cycles := cycles, allocs := allocs) == ReleaseElapsed(db, now)
  {
    ReleasedRows(db, now, cycles, allocs);
  }

  lemma ReleasedRows(db: Db, now: Time, cycles: map<Key, Cycle>, allocs: map<Key, Allocation>)
    requires cycles.Keys == db.cycles.Keys && allocs.Keys == db.allocs.Keys
    requires forall k :: k in cycles ==>
      cycles[k] == if Elapsed(db.cycles[k], now) then ReleasedCycle(db.cycles[k], now) else db.cycles[k]
    requires forall k :: k in allocs ==>
      allocs[k] == if k in db.cycles && Elapsed(db.cycles[k], now) then db.allocs[k].(active := false) else db.allocs[k]
    ensures db.(cycles := cycles, allocs := allocs) == ReleaseElapsed(db, now)
  {}

  /** One more claimed row extends the tasks, or is finished and adds none. */
  lemma TasksGrow(db: Db, now: Time, handled: set<CandId>, was: seq<Task>, c: CandId, task: Option<Task>)
    requires ClaimedTasks(db, now, handled, was) && c !in handled && c in db.cands && db.cands[c].sub in db.subs
    requires var a := db.cands[c]; var g := db.subs[a.sub].config;
      task == if Finished(a, g, now) then None else Some(MakeTask(c, a.sub, a.cycleNo, g))
    ensures ClaimedTasks(db, now, handled + {c}, if task.Some? then was + [task.value] else was)
  {
    var tasks := if task.Some? then was + [task.value] else was;
    forall i | 0 <= i < |was| ensures Claims(db, now, handled + {c}, was[i]) && was[i].cand != c {
      assert Claims(db, now, handled, was[i]);
    }
    forall b | b in handled + {c} && b in db.cands && db.cands[b].sub in db.subs
      && !Finished(db.cands[b], db.subs[db.cands[b].sub].config, now)
      ensures exists i :: 0 <= i < |tasks| && tasks[i].cand == b
    {
      if b == c {
        assert tasks[|was|].cand == c;
      } else {
        var i :| 0 <= i < |was| && was[i].cand == b;
        assert tasks[i].cand == b;
      }
    }
  }

  /** Same keys, same messages: the constraints still hold. */
  lemma SameKeys(d: Db, e: Db)
    requires Linked(d) && Addressed(d)
    requires e.cands.Keys == d.cands.Keys && e.cycles.Keys == d.cycles.Keys && e.intents.Keys == d.intents.Keys
    requires e.allocs.Keys == d.allocs.Keys && e.orders.Keys == d.orders.Keys && e.msgs == d.msgs
    ensures Linked(e) && Addressed(e)
  {}

  lemma AddedOrder(d: Db, e: Db, k: Key, newMsg: MsgId)
    requires Linked(d) && Addressed(d) && k in d.cycles && k !in d.orders && newMsg !in d.msgs
    requires e.cands.Keys == d.cands.Keys && e.cycles.Keys == d.cycles.Keys && e.intents.Keys == d.intents.Keys
    requires e.allocs.Keys == d.allocs.Keys && e.orders.Keys == d.orders.Keys + {k}
    requires newMsg in e.msgs && e.msgs == d.msgs[newMsg := e.msgs[newMsg]] && IsPaymentOf(e.msgs[newMsg], k)
    ensures Linked(e) && Addressed(e)
  {}

  lemma WriteOrder(db: Db, k: Key, h: Graph)
    requires GraphExists(db, k) && h.order.Some?
    ensures Write(db, k, h) == db.(cands := db.cands[k.cand := h.cand], cycles := db.cycles[k := h.cycle],
      intents := db.intents[k := h.intent], allocs := db.allocs[k := h.alloc], orders := db.orders[k := h.order.value])
  {}

  lemma WriteFour(db: Db, k: Key, h: Graph)
    requires GraphExists(db, k) && h.order == OrderAt(db, k)
    ensures Write(db, k, h) == db.(cands := db.cands[k.cand := h.cand], cycles := db.cycles[k := h.cycle],
                                   intents := db.intents[k := h.intent], allocs := db.allocs[k := h.alloc])
  {}

  lemma WriteLinked(db: Db, k: Key, h: Graph)
    requires Linked(db) && Addressed(db) && GraphExists(db, k) && h.order == OrderAt(db, k)
    ensures Linked(Write(db, k, h)) && Addressed(Write(db, k, h))
  {
    hide Linked, Addressed;
    SameKeys(db, Write(db, k, h));
  }

  lemma SiblingsLinked(db: Db, a: Candidate)
    requires Linked(db) && Addressed(db)
    ensures Linked(BlockSiblings(db, a)) && Addressed(BlockSiblings(db, a))
  {
    SameKeys(db, BlockSiblings(db, a));
  }

  lemma BlockedLinked(db: Db, t: Task)
    requires Linked(db) && Addressed(db) && t.cand in db.cands
    ensures Linked(MarkNeedsAttention(db, t)) && Addressed(MarkNeedsAttention(db, t))
  {
    BlockParts(db, t);
    SameKeys(db, MarkNeedsAttention(db, t));
  }

  lemma WriteTwo(db: Db, k: Key, h: Graph)
    requires GraphExists(db, k)
    requires h.intent == db.intents[k] && h.alloc == db.allocs[k] && h.order == OrderAt(db, k)
    ensures Write(db, k, h) == db.(cands := db.cands[k.cand := h.cand], cycles := db.cycles[k := h.cycle])
  {}

  lemma LinkedGraph(db: Db, k: Key)
    requires Linked(db) && k in db.intents
    ensures GraphExists(db, k)
  {}

  lemma WriteThree(db: Db, k: Key, h: Graph)
    requires GraphExists(db, k) && h.alloc == db.allocs[k] && h.order == OrderAt(db, k)
    ensures Write(db, k, h) == db.(cands := db.cands[k.cand := h.cand], cycles := db.cycles[k := h.cycle],
                                   intents := db.intents[k := h.intent])
  {}

  /** Rewriting a checkout table by table; a row written back as it was changes nothing. */
  lemma WriteParts(db: Db, k: Key, h: Graph)
    requires GraphExists(db, k) && h.order == OrderAt(db, k)
    ensures Write(db, k, h) == db.(
      cands := if h.cand == db.cands[k.cand] then db.cands else db.cands[k.cand := h.cand],
      cycles := if h.cycle == db.cycles[k] then db.cycles else db.cycles[k := h.cycle],
      intents := if h.intent == db.intents[k] then db.intents else db.intents[k := h.intent],
      allocs := if h.alloc == db.allocs[k] then db.allocs else db.allocs[k := h.alloc])
  {}
}
