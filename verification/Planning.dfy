/** What one planning transaction does to the tables. */
module Planning {
  import opened Wrappers
  import opened Rows

  datatype PlanRequest = PlanRequest(
    cand: CandId, sub: SubId, config: Config, reserved: Money, expected: Option<Money>,
    seats: seq<SeatId>, now: Time, version: Option<nat>)
  {
    function Quoted(): Money { if expected.Some? then expected.value else reserved }

    predicate WellFormed() {
      && reserved.minor > 0
      && |seats| == config.OrderTicketCount()
      && Distinct(seats)
      && Quoted().currency == reserved.currency
      && !reserved.Less(Quoted())
    }
  }

  datatype PlanOutcome =
    | Planned(cycleNo: nat) | BudgetFull | LimitReached | AlreadyActive | NotFound | SeatUnavailable | Raised

  /** The keys of the active allocations of one buyer. */
  function BuyerKeys(allocs: map<Key, Allocation>, b: BuyerId): set<Key> {
    set k | k in allocs && allocs[k].active && allocs[k].buyer == b
  }

  /** The keys of the active allocations of one discovery batch. */
  function BatchKeys(allocs: map<Key, Allocation>, b: BatchId): set<Key> {
    set k | k in allocs && allocs[k].active && allocs[k].batch == b
  }

  /** The keys of the active allocations made for one subscription. */
  function OwnKeys(allocs: map<Key, Allocation>, cands: map<CandId, Candidate>, n: SubId): set<Key> {
    set k | k in allocs && allocs[k].active && allocs[k].cand in cands && cands[allocs[k].cand].sub == n
  }

  /** Those of them that belong to one discovery batch. */
  function OwnBatchKeys(allocs: map<Key, Allocation>, cands: map<CandId, Candidate>, n: SubId, b: BatchId): set<Key> {
    set k | k in OwnKeys(allocs, cands, n) && allocs[k].batch == b
  }

  /** The sessions that ever received an allocation in the batch, whether or not it is still active. */
  function BatchSessions(allocs: map<Key, Allocation>, cands: map<CandId, Candidate>, b: BatchId): set<SessionId> {
    set k | k in allocs && allocs[k].batch == b && allocs[k].cand in cands :: cands[allocs[k].cand].session
  }

  ghost function Total(allocs: map<Key, Allocation>, ks: set<Key>): int
    requires ks <= allocs.Keys
  {
    if ks == {} then 0
    else
      var k :| k in ks;
      allocs[k].reserved + Total(allocs, ks - {k})
  }

  /** The states a plan may take a candidate from. */
  predicate Plannable(t: Tracking) { t.Queued? || t.WaitingBudget? || t.RenewalClaimed? }

  predicate Claimable(db: Db, r: PlanRequest) {
    && r.cand in db.cands
    && db.cands[r.cand].sub == r.sub
    && Plannable(db.cands[r.cand].state)
    && r.sub in db.subs
    && db.subs[r.sub].enabled
    && (r.version.Some? ==> db.subs[r.sub].version == r.version.value)
  }

  /** Another slot of the same buyer and session already holds this seat. */
  predicate Occupied(db: Db, c: CandId, seat: SeatId)
    requires c in db.cands
  {
    exists d :: d in db.cands && d != c
      && db.cands[d].buyer == db.cands[c].buyer
      && db.cands[d].session == db.cands[c].session
      && db.cands[d].target == Some(seat)
  }

  predicate SlotRaises(a: Candidate, r: PlanRequest)
    requires r.WellFormed() && r.config.Valid()
  {
    r.config.individual
    && (!(1 <= a.ticketNo <= r.config.ticketCount) || (a.target.Some? && a.target.value != r.seats[0]))
  }

  predicate SessionLimitHit(db: Db, a: Candidate, g: Config) {
    var used := BatchSessions(db.allocs, db.cands, a.batch);
    a.session !in used && g.maxSessionsPerBatch.Some? && |used| >= g.maxSessionsPerBatch.value
  }

  ghost predicate BudgetHit(db: Db, a: Candidate, r: PlanRequest) {
    var g := r.config;
    || (g.maxActiveOrders.Some? && |BuyerKeys(db.allocs, a.buyer)| >= g.maxActiveOrders.value)
    || (g.maxActiveTotal.Some?
        && Total(db.allocs, BuyerKeys(db.allocs, a.buyer)) + r.reserved.minor > g.maxActiveTotal.value.minor)
    || (g.maxBatchTotal.Some?
        && Total(db.allocs, BatchKeys(db.allocs, a.batch)) + r.reserved.minor > g.maxBatchTotal.value.minor)
  }

  /** The candidate as the conditional claim leaves it; `state` is what the rest of the transaction decides. */
  function Touched(a: Candidate, r: PlanRequest, state: Tracking): Candidate {
    a.(state := state, nextRunAt := None,
       subVersion := if r.version.Some? then r.version.value else a.subVersion)
  }

  /** The tables after a fresh cycle, intent and allocation have been added for the candidate. */
  function WithCycle(db: Db, r: PlanRequest): Db
    requires r.cand in db.cands && r.WellFormed() && r.config.Valid()
  {
    var a := db.cands[r.cand];
    var k := Key(r.cand, a.cycleNo + 1);
    var t := Touched(a, r, Submitting).(
      cycleNo := a.cycleNo + 1,
      target := if r.config.individual then Some(r.seats[0]) else a.target);
    db.(cands := db.cands[r.cand := t],
        cycles := db.cycles[k := Cycle(CycleSubmitting, None, r.now, None, r.now, None)],
        intents := db.intents[k := Intent(Pending, r.seats, r.reserved, r.Quoted(), r.config.holdTtl,
                                          r.config.PriceUnlimited(), None, r.now)],
        allocs := db.allocs[k := Allocation(a.buyer, a.batch, r.cand, r.reserved.minor, true)])
  }

  ghost function Plan(db: Db, r: PlanRequest): (Db, PlanOutcome)
    requires r.config.Valid()
  {
    if !r.WellFormed() then (db, Raised)
    else if !Claimable(db, r) then
      (db, if r.cand !in db.cands || db.cands[r.cand].sub != r.sub then NotFound else AlreadyActive)
    else
      var a := db.cands[r.cand];
      if SlotRaises(a, r) then (db, Raised)
      else if r.config.individual && Occupied(db, r.cand, r.seats[0]) then
        (Put(db, r.cand, Touched(a, r, WaitingAvailability)), SeatUnavailable)
      else if SessionLimitHit(db, a, r.config) then
        (Put(db, r.cand, Touched(a, r, SkippedLimit)), LimitReached)
      else if BudgetHit(db, a, r) then
        (Put(db, r.cand, Touched(a, r, WaitingBudget)), BudgetFull)
      else (WithCycle(db, r), Planned(a.cycleNo + 1))
  }

  // ----- totals over sets of keys

  lemma {:induction false} TotalPick(allocs: map<Key, Allocation>, ks: set<Key>, k: Key)
    requires ks <= allocs.Keys && k in ks
    ensures Total(allocs, ks) == allocs[k].reserved + Total(allocs, ks - {k})
    decreases ks
  {
    var p :| p in ks && Total(allocs, ks) == allocs[p].reserved + Total(allocs, ks - {p});
    if p != k {
      TotalPick(allocs, ks - {p}, k);
      TotalPick(allocs, ks - {k}, p);
      assert ks - {p} - {k} == ks - {k} - {p};
    }
  }

  /** Totals only depend on the amounts of the listed keys, and grow with both. */
  lemma {:induction false} TotalMonotone(a: map<Key, Allocation>, ka: set<Key>, b: map<Key, Allocation>, kb: set<Key>)
    requires ka <= a.Keys && kb <= b.Keys && ka <= kb
    requires forall k :: k in ka ==> a[k].reserved <= b[k].reserved
    ensures Total(a, ka) <= Total(b, kb)
    decreases kb
  {
    if kb != {} {
      var k :| k in kb;
      TotalPick(b, kb, k);
      if k in ka {
        TotalPick(a, ka, k);
        TotalMonotone(a, ka - {k}, b, kb - {k});
      } else {
        TotalMonotone(a, ka, b, kb - {k});
      }
    }
  }
}
