/** When a plan goes through, and what each answer leaves behind, in terms of the rows alone. */
module Admission {
  import opened Wrappers
  import opened Rows
  import opened Planning

  // ----- what is asked

  function Quote(r: PlanRequest): Money { if r.expected.Some? then r.expected.value else r.reserved }

  /** A positive amount that covers the quote, and as many different seats as one order buys. */
  predicate Orderly(r: PlanRequest) {
    && r.reserved.minor > 0 && Quote(r).currency == r.reserved.currency && Quote(r).minor <= r.reserved.minor
    && |r.seats| == (if r.config.individual then 1 else r.config.ticketCount)
    && forall i, j :: 0 <= i < j < |r.seats| ==> r.seats[i] != r.seats[j]
  }

  /** The candidate is there for this subscription. */
  predicate IsKnown(db: Db, r: PlanRequest) { r.cand in db.cands && db.cands[r.cand].sub == r.sub }

  /** It may start, and the settings it was evaluated with are still those of its enabled subscription. */
  predicate MayStart(db: Db, r: PlanRequest) {
    && IsKnown(db, r) && r.sub in db.subs && db.subs[r.sub].enabled
    && (r.version.None? || r.version == Some(db.subs[r.sub].version))
    && db.cands[r.cand].state in {Queued, WaitingBudget, RenewalClaimed}
  }

  // ----- seats

  /** The slot is one of the subscription's, and keeps the seat it has. */
  predicate OwnPlace(a: Candidate, r: PlanRequest) {
    r.config.individual ==>
      1 <= a.ticketNo <= r.config.ticketCount && |r.seats| == 1 && (a.target.None? || a.target == Some(r.seats[0]))
  }

  /** Another slot of the buyer has this seat of the session. */
  predicate SeatTaken(db: Db, r: PlanRequest) {
    && r.config.individual && |r.seats| == 1 && r.cand in db.cands
    && exists d :: d in db.cands && d != r.cand && db.cands[d].target == Some(r.seats[0])
         && db.cands[d].buyer == db.cands[r.cand].buyer && db.cands[d].session == db.cands[r.cand].session
  }

  // ----- limits

  /** The candidate has received a reservation in this batch. */
  ghost predicate HasPlace(db: Db, c: CandId, b: BatchId) {
    exists k :: k in db.allocs && db.allocs[k].cand == c && db.allocs[k].batch == b
  }

  /** The different sessions with a reservation in the batch, active or not. */
  ghost function UsedSessions(db: Db, b: BatchId): set<SessionId> {
    set c | c in db.cands && HasPlace(db, c, b) :: db.cands[c].session
  }

  /** The session would be a new one in a batch that has as many as the subscription allows. */
  ghost predicate NoRoom(db: Db, r: PlanRequest) {
    && r.cand in db.cands && r.config.maxSessionsPerBatch.Some?
    && (forall c :: c in db.cands && db.cands[c].session == db.cands[r.cand].session ==> !HasPlace(db, c, db.cands[r.cand].batch))
    && |UsedSessions(db, db.cands[r.cand].batch)| >= r.config.maxSessionsPerBatch.value
  }

  /** One order more would be too many for the buyer. */
  predicate TooMany(db: Db, r: PlanRequest) {
    && r.cand in db.cands && r.config.maxActiveOrders.Some?
    && |set k | k in db.allocs && db.allocs[k].active && db.allocs[k].buyer == db.cands[r.cand].buyer|
         >= r.config.maxActiveOrders.value
  }

  /** The amount would be too much for the buyer. */
  ghost predicate TooMuch(db: Db, r: PlanRequest) {
    && r.cand in db.cands && r.config.maxActiveTotal.Some?
    && Total(db.allocs, set k | k in db.allocs && db.allocs[k].active && db.allocs[k].buyer == db.cands[r.cand].buyer)
         > r.config.maxActiveTotal.value.minor - r.reserved.minor
  }

  /** The amount would be too much for the batch. */
  ghost predicate TooMuchInBatch(db: Db, r: PlanRequest) {
    && r.cand in db.cands && r.config.maxBatchTotal.Some?
    && Total(db.allocs, set k | k in db.allocs && db.allocs[k].active && db.allocs[k].batch == db.cands[r.cand].batch)
         > r.config.maxBatchTotal.value.minor - r.reserved.minor
  }

  ghost predicate OverBudget(db: Db, r: PlanRequest) { TooMany(db, r) || TooMuch(db, r) || TooMuchInBatch(db, r) }

  // ----- the answer

  /** The request is in order, and the candidate may be planned if limits and seats allow it. */
  predicate Considered(db: Db, r: PlanRequest) { Orderly(r) && MayStart(db, r) && OwnPlace(db.cands[r.cand], r) }

  /** Exactly when a plan is given each answer. */
  ghost predicate Answers(db: Db, r: PlanRequest, outcome: PlanOutcome) {
    && (outcome.Raised? <==> !Orderly(r) || (MayStart(db, r) && !OwnPlace(db.cands[r.cand], r)))
    && (outcome.NotFound? <==> Orderly(r) && !IsKnown(db, r))
    && (outcome.AlreadyActive? <==> Orderly(r) && IsKnown(db, r) && !MayStart(db, r))
    && (outcome.SeatUnavailable? <==> Considered(db, r) && SeatTaken(db, r))
    && (outcome.LimitReached? <==> Considered(db, r) && !SeatTaken(db, r) && NoRoom(db, r))
    && (outcome.BudgetFull? <==> Considered(db, r) && !SeatTaken(db, r) && !NoRoom(db, r) && OverBudget(db, r))
    && (outcome.Planned? <==> Considered(db, r) && !SeatTaken(db, r) && !NoRoom(db, r) && !OverBudget(db, r))
  }

  lemma UsedIsCounted(db: Db, b: BatchId)
    ensures BatchSessions(db.allocs, db.cands, b) == UsedSessions(db, b)
  {
    forall x | x in UsedSessions(db, b) ensures x in BatchSessions(db.allocs, db.cands, b) {
      var c :| c in db.cands && HasPlace(db, c, b) && db.cands[c].session == x;
      var k :| k in db.allocs && db.allocs[k].cand == c && db.allocs[k].batch == b;
    }
    forall x | x in BatchSessions(db.allocs, db.cands, b) ensures x in UsedSessions(db, b) {
      var k :| k in db.allocs && db.allocs[k].batch == b && db.allocs[k].cand in db.cands
        && db.cands[db.allocs[k].cand].session == x;
      assert HasPlace(db, db.allocs[k].cand, b);
    }
  }

  lemma RoomIsChecked(db: Db, r: PlanRequest)
    requires r.cand in db.cands
    ensures SessionLimitHit(db, db.cands[r.cand], r.config) <==> NoRoom(db, r)
  {
    var a := db.cands[r.cand];
    UsedIsCounted(db, a.batch);
    assert a.session in UsedSessions(db, a.batch) <==>
      exists c :: c in db.cands && db.cands[c].session == a.session && HasPlace(db, c, a.batch);
  }

  lemma BudgetIsChecked(db: Db, r: PlanRequest)
    requires r.cand in db.cands
    ensures BudgetHit(db, db.cands[r.cand], r) <==> OverBudget(db, r)
  {}

  lemma SeatsAreChecked(db: Db, r: PlanRequest)
    requires Orderly(r) && r.config.Valid() && r.WellFormed() && r.cand in db.cands
    ensures SlotRaises(db.cands[r.cand], r) <==> !OwnPlace(db.cands[r.cand], r)
    ensures r.config.individual && Occupied(db, r.cand, r.seats[0]) <==> SeatTaken(db, r)
  {}

  lemma RequestIsChecked(db: Db, r: PlanRequest)
    ensures r.WellFormed() <==> Orderly(r)
    ensures Claimable(db, r) <==> MayStart(db, r)
  {}

  lemma PlanAnswers(db: Db, r: PlanRequest)
    requires r.config.Valid()
    ensures Answers(db, r, Plan(db, r).1)
  {
    hide Orderly, MayStart, Plan, Answers;
    RequestIsChecked(db, r);
    if Orderly(r) && MayStart(db, r) { ConsideredAnswers(db, r); } else { OtherAnswers(db, r); }
  }

  lemma OtherAnswers(db: Db, r: PlanRequest)
    requires r.config.Valid() && !(Orderly(r) && MayStart(db, r))
    ensures Answers(db, r, Plan(db, r).1)
  {
    hide Orderly, MayStart, OwnPlace, SeatTaken, NoRoom, OverBudget, SlotRaises, Occupied, SessionLimitHit, BudgetHit, WithCycle;
    RequestIsChecked(db, r);
  }

  lemma ConsideredAnswers(db: Db, r: PlanRequest)
    requires r.config.Valid() && Orderly(r) && MayStart(db, r)
    ensures Answers(db, r, Plan(db, r).1)
  {
    hide Orderly, MayStart, OwnPlace, SeatTaken, NoRoom, OverBudget, SlotRaises, Occupied, SessionLimitHit, BudgetHit, WithCycle, Claimable;
    RequestIsChecked(db, r);
    KnownIfStarting(db, r);
    SeatsAreChecked(db, r);
    RoomIsChecked(db, r);
    BudgetIsChecked(db, r);
  }

  lemma KnownIfStarting(db: Db, r: PlanRequest)
    requires MayStart(db, r)
    ensures IsKnown(db, r)
  {}

  // ----- what is left behind

  /** Only the candidate is touched: it is in this state, without a due time, and knows the version it was planned for. */
  predicate OnlyMoves(d: Db, e: Db, r: PlanRequest, state: Tracking) {
    && r.cand in d.cands && r.cand in e.cands && e == d.(cands := d.cands[r.cand := e.cands[r.cand]])
    && var a, b := d.cands[r.cand], e.cands[r.cand];
       && b.state == state && b.nextRunAt.None? && b.subVersion == (if r.version.Some? then r.version.value else a.subVersion)
       && b == a.(state := b.state, nextRunAt := b.nextRunAt, subVersion := b.subVersion)
  }

  /** The next cycle with its pending checkout and its reservation is new, and the candidate has moved on to it. */
  ghost predicate Starts(d: Db, e: Db, r: PlanRequest, no: nat) {
    && r.cand in d.cands && r.cand in e.cands && no == d.cands[r.cand].cycleNo + 1
    && var k := Key(r.cand, no);
      && k in e.cycles && k in e.intents && k in e.allocs
      && e == d.(cands := d.cands[r.cand := e.cands[r.cand]], cycles := d.cycles[k := e.cycles[k]],
                 intents := d.intents[k := e.intents[k]], allocs := d.allocs[k := e.allocs[k]])
      && MovesOn(d.cands[r.cand], e.cands[r.cand], r, no)
      && NewCycle(e.cycles[k], r) && NewIntent(e.intents[k], r) && NewReservation(e.allocs[k], d.cands[r.cand], r)
  }

  predicate MovesOn(a: Candidate, b: Candidate, r: PlanRequest, no: nat) {
    && b.state.Submitting? && b.cycleNo == no && b.nextRunAt.None?
    && b.subVersion == (if r.version.Some? then r.version.value else a.subVersion)
    && b.target == (if r.config.individual && r.seats != [] then Some(r.seats[0]) else a.target)
    && b == a.(state := b.state, cycleNo := b.cycleNo, nextRunAt := b.nextRunAt, subVersion := b.subVersion, target := b.target)
  }

  predicate NewCycle(y: Cycle, r: PlanRequest) {
    y.state.CycleSubmitting? && y.createdAt == y.startedAt == r.now && y.dueAt.None? && y.endedAt.None? && y.releasedAt.None?
  }

  predicate NewIntent(i: Intent, r: PlanRequest) {
    && i.state.Pending? && i.seats == r.seats && i.reserved == r.reserved && i.expected == Quote(r)
    && i.holdTtl == r.config.holdTtl && i.unlimited == (r.config.individual && r.config.maxOrderTotal.None?)
    && i.writeStartedAt.None? && i.createdAt == r.now
  }

  predicate NewReservation(l: Allocation, a: Candidate, r: PlanRequest) {
    l.active && l.reserved == r.reserved.minor && l.buyer == a.buyer && l.batch == a.batch && l.cand == r.cand
  }

  ghost predicate Leaves(d: Db, e: Db, r: PlanRequest, outcome: PlanOutcome) {
    match outcome
    case Planned(no) => Starts(d, e, r, no)
    case SeatUnavailable => OnlyMoves(d, e, r, WaitingAvailability)
    case LimitReached => OnlyMoves(d, e, r, SkippedLimit)
    case BudgetFull => OnlyMoves(d, e, r, WaitingBudget)
    case _ => e == d
  }

  lemma PlanLeaves(db: Db, r: PlanRequest)
    requires r.config.Valid()
    ensures Leaves(db, Plan(db, r).0, r, Plan(db, r).1)
  {
    hide WithCycle, Starts, Claimable, SlotRaises, Occupied, SessionLimitHit, BudgetHit, OnlyMoves, Touched;
    if r.cand in db.cands {
      Moves(db, r, WaitingAvailability);
      Moves(db, r, SkippedLimit);
      Moves(db, r, WaitingBudget);
      if r.WellFormed() { CycleStarts(db, r); }
    }
    ClaimableIsKnown(db, r);
  }

  lemma ClaimableIsKnown(db: Db, r: PlanRequest)
    ensures Claimable(db, r) ==> r.cand in db.cands
  {}

  lemma Moves(db: Db, r: PlanRequest, state: Tracking)
    requires r.cand in db.cands
    ensures OnlyMoves(db, Put(db, r.cand, Touched(db.cands[r.cand], r, state)), r, state)
  {}

  lemma CycleStarts(db: Db, r: PlanRequest)
    requires r.cand in db.cands && r.WellFormed() && r.config.Valid()
    ensures Starts(db, WithCycle(db, r), r, db.cands[r.cand].cycleNo + 1)
  {}
}
