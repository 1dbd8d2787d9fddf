/** The invariant of the booking tables, and the proof that every transaction keeps it. */
module Invariants {
  import opened Wrappers
  import opened Rows
  import opened Planning
  import opened Scheduling
  import opened Checkout

  /** The states in which a candidate's current cycle may hold a reservation. */
  ghost predicate MayHold(t: Tracking) {
    t.Submitting? || t.NeedsAttention? || t.Stopped? || t.AwaitingPayment? || t.RenewalWaiting?
  }

  /** What ties together the rows of one cycle `k` of a candidate with settings `c`. */
  ghost predicate RowInv(k: Key, c: Config, g: Graph) {
    Reservation(k, g) && Progressing(c, g) && Amounts(c, g)
  }

  /** The reservation belongs to the candidate's current cycle, and is held exactly until the cycle is released. */
  ghost predicate Reservation(k: Key, g: Graph) {
    && g.alloc.buyer == g.cand.buyer && g.alloc.batch == g.cand.batch && g.alloc.cand == k.cand
    && (g.alloc.active <==> g.cycle.releasedAt.None?)
    && (g.alloc.active ==> k.no == g.cand.cycleNo)
    // an unfinished intent keeps its reservation, and a reservation keeps the candidate from running
    && (!Settled(g.intent.state) ==> g.alloc.active)
    && (g.alloc.active ==> MayHold(g.cand.state))
    && (g.alloc.active && g.cand.state.AwaitingPayment? ==> g.intent.state.Confirmed?)
    && (g.alloc.active && g.cand.state.RenewalWaiting? ==>
          g.intent.state.Confirmed? && g.cycle.dueAt.Some? && g.cand.nextRunAt == g.cycle.dueAt)
  }

  /** Orders, due times and write marks follow the intent's state. */
  ghost predicate Progressing(c: Config, g: Graph) {
    && (g.intent.state.Confirmed? <==> g.order.Some?)
    && (g.cycle.dueAt.Some? ==> g.order.Some? && g.cycle.dueAt.value == g.order.value.heldAt + c.interval)
    && (g.order.Some? && g.cycle.dueAt.None? ==> g.alloc.active && (g.cand.state.AwaitingPayment? || g.cand.state.Stopped?))
    && (g.order.Some? && !g.alloc.active ==>
          g.cycle.dueAt.Some? && g.cycle.releasedAt.Some? && g.cycle.dueAt.value <= g.cycle.releasedAt.value)
    // a pending intent was never written; every later state but `Unknown` was
    && (g.intent.state.Pending? ==> g.intent.writeStartedAt.None?)
    && (!g.intent.state.Pending? && !g.intent.state.Unknown? ==> g.intent.writeStartedAt.Some?)
  }

  /** The order fits its intent, the reservation covers it, and an individual slot keeps its seat. */
  ghost predicate Amounts(c: Config, g: Graph) {
    && |g.intent.seats| == c.OrderTicketCount() && Distinct(g.intent.seats)
    && g.intent.unlimited == c.PriceUnlimited() && g.intent.holdTtl == c.holdTtl
    && g.intent.expected.currency == g.intent.reserved.currency && g.intent.expected.minor <= g.intent.reserved.minor
    && (g.intent.writeStartedAt.Some? ==> g.intent.expected.minor > 0)
    && (g.order.Some? ==> OrderFits(g.intent, g.order.value) && g.alloc.reserved == g.order.value.total.minor)
    && (g.order.None? ==> g.alloc.reserved == g.intent.reserved.minor)
    && (c.individual && !g.intent.state.Rejected? ==> g.cand.target == Some(g.intent.seats[0]))
  }

  ghost predicate Tables(db: Db) {
    && (forall s :: s in db.subs ==> db.subs[s].config.Valid())
    && (forall c :: c in db.cands ==> CandidateInv(db, db.cands[c]))
    && (forall k :: k in db.cycles <==> k.cand in db.cands && 1 <= k.no <= db.cands[k.cand].cycleNo)
    && db.intents.Keys == db.cycles.Keys
    && db.allocs.Keys == db.cycles.Keys
    && db.orders.Keys <= db.cycles.Keys
  }

  ghost predicate CandidateInv(db: Db, a: Candidate) {
    && a.sub in db.subs && a.session in db.sessions && a.buyer in db.buyers
    && db.subs[a.sub].buyer == a.buyer
    && (a.ticketNo > 0 <==> db.subs[a.sub].config.individual)
    && (a.target.Some? ==> a.ticketNo > 0)
    && (db.subs[a.sub].config.maxCycles.Some? ==> a.cycleNo <= db.subs[a.sub].config.maxCycles.value)
  }

  function Settings(db: Db, c: CandId): Config
    requires c in db.cands && db.cands[c].sub in db.subs
  {
    db.subs[db.cands[c].sub].config
  }

  ghost predicate RowsAt(db: Db, k: Key) {
    && k in db.cycles && GraphExists(db, k) && db.cands[k.cand].sub in db.subs
    && RowInv(k, Settings(db, k.cand), Read(db, k))
  }

  ghost predicate AllRows(db: Db) {
    forall k :: k in db.cycles ==> RowsAt(db, k)
  }

  predicate Follows(k: Key, n: Key) { n.cand == k.cand && n.no == k.no + 1 }

  /** A cycle is planned only after the hold of the previous one has run out. */
  ghost predicate Timing(db: Db) {
    forall k, n :: Follows(k, n) && k in db.cycles && n in db.cycles && db.cycles[k].dueAt.Some?
      ==> db.cycles[k].dueAt.value <= db.cycles[n].createdAt
  }

  /** Slots of one buyer and session never share a seat. */
  ghost predicate SeatsDiffer(db: Db) {
    forall c, d ::
      (&& c in db.cands && d in db.cands && c != d
       && db.cands[c].buyer == db.cands[d].buyer && db.cands[c].session == db.cands[d].session
       && db.cands[c].target.Some?)
      ==> db.cands[c].target != db.cands[d].target
  }

  /** Every order has exactly one payment message, and payment messages belong to orders. */
  ghost predicate Mail(db: Db) {
    && (forall m :: m in db.msgs && db.msgs[m].kind.Payment? ==> db.msgs[m].kind.order in db.orders)
    && (forall k :: k in db.orders ==> HasMail(db, k))
    && (forall m, n ::
          (m in db.msgs && n in db.msgs && db.msgs[m].kind.Payment? && db.msgs[m].kind == db.msgs[n].kind)
          ==> m == n)
  }

  // ----- limits: a bound that every concerned subscription respects is respected by the tables

  ghost predicate CountCap(db: Db, b: BuyerId, m: nat) {
    forall s :: s in db.subs && db.subs[s].buyer == b ==>
      db.subs[s].config.maxActiveOrders.Some? && db.subs[s].config.maxActiveOrders.value <= m
  }

  ghost predicate TotalCap(db: Db, b: BuyerId, t: nat) {
    forall s :: s in db.subs && db.subs[s].buyer == b ==>
      db.subs[s].config.maxActiveTotal.Some? && db.subs[s].config.maxActiveTotal.value.minor <= t
  }

  ghost predicate BatchTotalCap(db: Db, b: BatchId, t: nat) {
    forall c :: c in db.cands && db.cands[c].batch == b && db.cands[c].sub in db.subs ==>
      Settings(db, c).maxBatchTotal.Some? && Settings(db, c).maxBatchTotal.value.minor <= t
  }

  ghost predicate SessionCap(db: Db, b: BatchId, m: nat) {
    forall c :: c in db.cands && db.cands[c].batch == b && db.cands[c].sub in db.subs ==>
      Settings(db, c).maxSessionsPerBatch.Some? && Settings(db, c).maxSessionsPerBatch.value <= m
  }

  /** What is held for one subscription stays within the limits of that subscription, whoever else is there. */
  ghost predicate OwnCaps(db: Db, n: SubId)
    requires n in db.subs
  {
    var g, held := db.subs[n].config, OwnKeys(db.allocs, db.cands, n);
    && (g.maxActiveOrders.Some? ==> |held| <= g.maxActiveOrders.value)
    && (g.maxActiveTotal.Some? ==> Total(db.allocs, held) <= g.maxActiveTotal.value.minor)
    && (forall b :: g.maxBatchTotal.Some? ==>
          Total(db.allocs, OwnBatchKeys(db.allocs, db.cands, n, b)) <= g.maxBatchTotal.value.minor)
  }

  ghost predicate Caps(db: Db) {
    && (forall n :: n in db.subs ==> OwnCaps(db, n))
    && (forall b, m: nat :: CountCap(db, b, m) ==> |BuyerKeys(db.allocs, b)| <= m)
    && (forall b, t: nat :: TotalCap(db, b, t) ==> Total(db.allocs, BuyerKeys(db.allocs, b)) <= t)
    && (forall b, t: nat :: BatchTotalCap(db, b, t) ==> Total(db.allocs, BatchKeys(db.allocs, b)) <= t)
    && (forall b, m: nat :: SessionCap(db, b, m) ==> |BatchSessions(db.allocs, db.cands, b)| <= m)
  }

  ghost predicate Inv(db: Db) {
    Tables(db) && AllRows(db) && Timing(db) && SeatsDiffer(db) && Mail(db) && Caps(db)
  }

  // ----- frames

  /** The candidate is the same one, at the same cycle, and its seat is kept or given up. */
  ghost predicate SameIdentity(a: Candidate, b: Candidate) {
    && b.buyer == a.buyer && b.sub == a.sub && b.session == a.session && b.batch == a.batch
    && b.ticketNo == a.ticketNo && b.cycleNo == a.cycleNo && b.live == a.live && (b.target == a.target || b.target.None?)
  }

  /**
   A transaction that plans nothing: the same candidates, cycles, intents and allocations remain, reservations
   are returned or rewritten within their bound, and no due time of an earlier cycle moves.
   */
  ghost predicate Quiet(d: Db, e: Db) {
    && e.subs == d.subs && e.sessions == d.sessions && e.buyers == d.buyers
    && e.cands.Keys == d.cands.Keys && e.cycles.Keys == d.cycles.Keys
    && e.intents.Keys == d.intents.Keys && e.allocs.Keys == d.allocs.Keys
    && e.orders.Keys <= e.cycles.Keys
    && (forall c :: c in d.cands ==> SameIdentity(d.cands[c], e.cands[c]))
    && (forall k, n :: Follows(k, n) && k in d.cycles && n in d.cycles ==>
          e.cycles[k].dueAt == d.cycles[k].dueAt && e.cycles[n].createdAt == d.cycles[n].createdAt)
    && (forall k :: k in d.allocs ==> QuietAllocation(d, d.allocs[k], e.allocs[k]))
  }

  ghost predicate QuietAllocation(d: Db, l: Allocation, m: Allocation) {
    && m.buyer == l.buyer && m.batch == l.batch && m.cand == l.cand
    && (m.active ==> l.active)
    && (m.reserved <= l.reserved || (l.cand in d.cands && d.cands[l.cand].sub in d.subs
                                     && d.cands[l.cand].buyer == l.buyer && d.cands[l.cand].batch == l.batch
                                     && d.subs[d.cands[l.cand].sub].buyer == l.buyer
                                     && Settings(d, l.cand).PriceUnlimited()))
  }

  lemma Subset<T>(a: set<T>, b: set<T>)
    requires a <= b
    ensures |a| <= |b|
  {
    assert b == a + (b - a);
  }

  lemma QuietTables(d: Db, e: Db)
    requires Tables(d) && Timing(d) && SeatsDiffer(d) && Quiet(d, e)
    ensures Tables(e) && Timing(e) && SeatsDiffer(e)
  {
    hide CandidateInv, SameIdentity, Timing, SeatsDiffer;
    forall c | c in e.cands ensures CandidateInv(e, e.cands[c]) { QuietCandidate(d, e, c); }
    forall k ensures k in e.cycles <==> k.cand in e.cands && 1 <= k.no <= e.cands[k.cand].cycleNo { QuietCycle(d, e, k); }
    QuietTiming(d, e);
    QuietSeats(d, e);
  }

  lemma QuietCandidate(d: Db, e: Db, c: CandId)
    requires Tables(d) && Quiet(d, e) && c in e.cands
    ensures CandidateInv(e, e.cands[c])
  {
    assert SameIdentity(d.cands[c], e.cands[c]) && CandidateInv(d, d.cands[c]);
  }

  lemma QuietCycle(d: Db, e: Db, k: Key)
    requires Tables(d) && Quiet(d, e)
    ensures k in e.cycles <==> k.cand in e.cands && 1 <= k.no <= e.cands[k.cand].cycleNo
  {
    if k.cand in d.cands { assert SameIdentity(d.cands[k.cand], e.cands[k.cand]); }
  }

  lemma QuietTiming(d: Db, e: Db)
    requires Tables(d) && Timing(d) && Quiet(d, e)
    ensures Timing(e)
  {}

  lemma QuietSeats(d: Db, e: Db)
    requires SeatsDiffer(d) && Quiet(d, e)
    ensures SeatsDiffer(e)
  {
    forall c, b | c in e.cands && b in e.cands && c != b
      && e.cands[c].buyer == e.cands[b].buyer && e.cands[c].session == e.cands[b].session
      && e.cands[c].target.Some?
      ensures e.cands[c].target != e.cands[b].target
    {
      assert SameIdentity(d.cands[c], e.cands[c]) && SameIdentity(d.cands[b], e.cands[b]);
    }
  }

  lemma QuietBuyerKeys(d: Db, e: Db, b: BuyerId)
    requires Quiet(d, e)
    ensures BuyerKeys(e.allocs, b) <= BuyerKeys(d.allocs, b)
  {
    forall k | k in BuyerKeys(e.allocs, b) ensures k in BuyerKeys(d.allocs, b) { assert QuietAllocation(d, d.allocs[k], e.allocs[k]); }
  }

  lemma QuietCountCap(d: Db, e: Db, b: BuyerId, m: nat)
    requires Caps(d) && Quiet(d, e) && CountCap(e, b, m)
    ensures |BuyerKeys(d.allocs, b)| <= m
  {
    assert CountCap(d, b, m);
  }

  /** Under a limit on amounts no reservation grows. */
  lemma QuietBuyerTotal(d: Db, e: Db, b: BuyerId, t: nat)
    requires Tables(d) && Caps(d) && Quiet(d, e) && TotalCap(e, b, t)
    ensures Total(e.allocs, BuyerKeys(e.allocs, b)) <= t
  {
    assert TotalCap(d, b, t);
    QuietBuyerKeys(d, e, b);
    forall k | k in BuyerKeys(e.allocs, b) ensures e.allocs[k].reserved <= d.allocs[k].reserved { QuietBuyerAmount(d, e, b, t, k); }
    TotalMonotone(e.allocs, BuyerKeys(e.allocs, b), d.allocs, BuyerKeys(d.allocs, b));
  }

  lemma QuietBuyerAmount(d: Db, e: Db, b: BuyerId, t: nat, k: Key)
    requires Tables(d) && Quiet(d, e) && TotalCap(d, b, t) && k in BuyerKeys(e.allocs, b)
    ensures k in d.allocs && e.allocs[k].reserved <= d.allocs[k].reserved
  {
    var l := d.allocs[k];
    assert QuietAllocation(d, l, e.allocs[k]);
    if l.cand in d.cands && d.cands[l.cand].sub in d.subs && d.subs[d.cands[l.cand].sub].buyer == b {
      assert Settings(d, l.cand).Valid() && !Settings(d, l.cand).PriceUnlimited();
    }
  }

  lemma QuietBuyer(d: Db, e: Db, b: BuyerId)
    requires Tables(d) && Caps(d) && Quiet(d, e)
    ensures forall m: nat :: CountCap(e, b, m) ==> |BuyerKeys(e.allocs, b)| <= m
    ensures forall t: nat :: TotalCap(e, b, t) ==> Total(e.allocs, BuyerKeys(e.allocs, b)) <= t
  {
    hide Tables, Caps, Total;
    QuietBuyerKeys(d, e, b);
    Subset(BuyerKeys(e.allocs, b), BuyerKeys(d.allocs, b));
    forall m: nat | CountCap(e, b, m) ensures |BuyerKeys(e.allocs, b)| <= m { QuietCountCap(d, e, b, m); }
    forall t: nat | TotalCap(e, b, t) ensures Total(e.allocs, BuyerKeys(e.allocs, b)) <= t { QuietBuyerTotal(d, e, b, t); }
  }

  lemma QuietBatchTotal(d: Db, e: Db, b: BatchId, t: nat)
    requires Tables(d) && Caps(d) && Quiet(d, e) && BatchTotalCap(e, b, t)
    ensures Total(e.allocs, BatchKeys(e.allocs, b)) <= t
  {
    QuietTotalCap(d, e, b, t);
    forall k | k in BatchKeys(e.allocs, b) ensures k in BatchKeys(d.allocs, b) && e.allocs[k].reserved <= d.allocs[k].reserved {
      QuietBatchAmount(d, e, b, t, k);
    }
    TotalMonotone(e.allocs, BatchKeys(e.allocs, b), d.allocs, BatchKeys(d.allocs, b));
  }

  lemma QuietTotalCap(d: Db, e: Db, b: BatchId, t: nat)
    requires Quiet(d, e) && BatchTotalCap(e, b, t)
    ensures BatchTotalCap(d, b, t)
  {
    forall c | c in d.cands && d.cands[c].batch == b && d.cands[c].sub in d.subs
      ensures Settings(d, c).maxBatchTotal.Some? && Settings(d, c).maxBatchTotal.value.minor <= t
    { assert SameIdentity(d.cands[c], e.cands[c]); assert Settings(e, c) == Settings(d, c); }
  }

  lemma QuietBatchAmount(d: Db, e: Db, b: BatchId, t: nat, k: Key)
    requires Tables(d) && Quiet(d, e) && BatchTotalCap(d, b, t) && k in BatchKeys(e.allocs, b)
    ensures k in BatchKeys(d.allocs, b) && e.allocs[k].reserved <= d.allocs[k].reserved
  {
    var l := d.allocs[k];
    assert QuietAllocation(d, l, e.allocs[k]);
    if l.cand in d.cands && d.cands[l.cand].sub in d.subs && d.cands[l.cand].batch == b {
      assert Settings(d, l.cand).Valid() && !Settings(d, l.cand).PriceUnlimited();
    }
  }

  lemma QuietBatchSessions(d: Db, e: Db, b: BatchId, m: nat)
    requires Caps(d) && Quiet(d, e) && SessionCap(e, b, m)
    ensures |BatchSessions(e.allocs, e.cands, b)| <= m
  {
    QuietSessionCap(d, e, b, m);
    QuietSessionsUsed(d, e, b);
    Subset(BatchSessions(e.allocs, e.cands, b), BatchSessions(d.allocs, d.cands, b));
  }

  lemma QuietSessionCap(d: Db, e: Db, b: BatchId, m: nat)
    requires Quiet(d, e) && SessionCap(e, b, m)
    ensures SessionCap(d, b, m)
  {
    forall c | c in d.cands && d.cands[c].batch == b && d.cands[c].sub in d.subs
      ensures Settings(d, c).maxSessionsPerBatch.Some? && Settings(d, c).maxSessionsPerBatch.value <= m
    { assert SameIdentity(d.cands[c], e.cands[c]); assert Settings(e, c) == Settings(d, c); }
  }

  lemma QuietSessionsUsed(d: Db, e: Db, b: BatchId)
    requires Quiet(d, e)
    ensures BatchSessions(e.allocs, e.cands, b) <= BatchSessions(d.allocs, d.cands, b)
  {
    forall s | s in BatchSessions(e.allocs, e.cands, b) ensures s in BatchSessions(d.allocs, d.cands, b) {
      var k :| k in e.allocs && e.allocs[k].batch == b && e.allocs[k].cand in e.cands && e.cands[e.allocs[k].cand].session == s;
      assert QuietAllocation(d, d.allocs[k], e.allocs[k]);
      assert SameIdentity(d.cands[e.allocs[k].cand], e.cands[e.allocs[k].cand]);
    }
  }

  lemma QuietBatch(d: Db, e: Db, b: BatchId)
    requires Tables(d) && Caps(d) && Quiet(d, e)
    ensures forall t: nat :: BatchTotalCap(e, b, t) ==> Total(e.allocs, BatchKeys(e.allocs, b)) <= t
    ensures forall m: nat :: SessionCap(e, b, m) ==> |BatchSessions(e.allocs, e.cands, b)| <= m
  {
    hide Tables, Caps, Total, BatchSessions, Quiet;
    forall t: nat | BatchTotalCap(e, b, t) ensures Total(e.allocs, BatchKeys(e.allocs, b)) <= t { QuietBatchTotal(d, e, b, t); }
    forall m: nat | SessionCap(e, b, m) ensures |BatchSessions(e.allocs, e.cands, b)| <= m { QuietBatchSessions(d, e, b, m); }
  }

  /** Fewer keys with smaller amounts hold less. */
  lemma QuietShare(d: Db, e: Db, n: SubId, old_: set<Key>, new_: set<Key>)
    requires Tables(d) && Quiet(d, e) && n in d.subs && new_ <= old_
    requires old_ <= OwnKeys(d.allocs, d.cands, n) && new_ <= OwnKeys(e.allocs, e.cands, n)
    ensures |new_| <= |old_|
    ensures !d.subs[n].config.PriceUnlimited() ==> Total(e.allocs, new_) <= Total(d.allocs, old_)
  {
    Subset(new_, old_);
    if !d.subs[n].config.PriceUnlimited() {
      forall k | k in new_ ensures e.allocs[k].reserved <= d.allocs[k].reserved {
        assert QuietAllocation(d, d.allocs[k], e.allocs[k]);
      }
      TotalMonotone(e.allocs, new_, d.allocs, old_);
    }
  }

  lemma QuietKeys(d: Db, e: Db, n: SubId)
    requires Quiet(d, e)
    ensures OwnKeys(e.allocs, e.cands, n) <= OwnKeys(d.allocs, d.cands, n)
    ensures forall b :: OwnBatchKeys(e.allocs, e.cands, n, b) <= OwnBatchKeys(d.allocs, d.cands, n, b)
  {
    forall k | k in OwnKeys(e.allocs, e.cands, n)
      ensures k in OwnKeys(d.allocs, d.cands, n) && e.allocs[k].batch == d.allocs[k].batch
    {
      assert QuietAllocation(d, d.allocs[k], e.allocs[k]);
      assert SameIdentity(d.cands[e.allocs[k].cand], e.cands[e.allocs[k].cand]);
    }
  }

  lemma QuietOwn(d: Db, e: Db, n: SubId)
    requires Tables(d) && n in d.subs && OwnCaps(d, n) && Quiet(d, e)
    ensures OwnCaps(e, n)
  {
    assert d.subs[n].config.Valid();
    QuietKeys(d, e, n);
    QuietShare(d, e, n, OwnKeys(d.allocs, d.cands, n), OwnKeys(e.allocs, e.cands, n));
    forall b | d.subs[n].config.maxBatchTotal.Some?
      ensures Total(e.allocs, OwnBatchKeys(e.allocs, e.cands, n, b)) <= d.subs[n].config.maxBatchTotal.value.minor
    {
      QuietShare(d, e, n, OwnBatchKeys(d.allocs, d.cands, n, b), OwnBatchKeys(e.allocs, e.cands, n, b));
    }
  }

  lemma QuietCaps(d: Db, e: Db)
    requires Tables(d) && Caps(d) && Quiet(d, e)
    ensures Caps(e)
  {
    forall n | n in e.subs ensures OwnCaps(e, n) { QuietOwn(d, e, n); }
    forall b, m: nat | CountCap(e, b, m) ensures |BuyerKeys(e.allocs, b)| <= m { QuietBuyer(d, e, b); }
    forall b, t: nat | TotalCap(e, b, t) ensures Total(e.allocs, BuyerKeys(e.allocs, b)) <= t { QuietBuyer(d, e, b); }
    forall b, t: nat | BatchTotalCap(e, b, t) ensures Total(e.allocs, BatchKeys(e.allocs, b)) <= t { QuietBatch(d, e, b); }
    forall b, m: nat | SessionCap(e, b, m) ensures |BatchSessions(e.allocs, e.cands, b)| <= m { QuietBatch(d, e, b); }
  }

  lemma SameMail(d: Db, e: Db)
    requires Mail(d) && e.orders == d.orders && e.msgs == d.msgs
    ensures Mail(e)
  {}

  /** A quiet transaction that leaves orders and messages alone keeps the invariant if it keeps the rows. */
  lemma QuietKeeps(d: Db, e: Db)
    requires Inv(d) && Quiet(d, e) && AllRows(e) && e.orders == d.orders && e.msgs == d.msgs
    ensures Inv(e)
  {
    QuietTables(d, e);
    QuietCaps(d, e);
    SameMail(d, e);
  }

  /** Limits only depend on subscriptions, candidates and allocations. */
  lemma CapsFrame(d: Db, e: Db)
    requires Caps(d) && e.subs == d.subs && e.cands == d.cands && e.allocs == d.allocs
    ensures Caps(e)
  {
    forall n | n in e.subs ensures OwnCaps(e, n) { assert OwnCaps(d, n); }
    forall b, m: nat | CountCap(e, b, m) ensures |BuyerKeys(e.allocs, b)| <= m { assert CountCap(d, b, m); }
    forall b, t: nat | TotalCap(e, b, t) ensures Total(e.allocs, BuyerKeys(e.allocs, b)) <= t { assert TotalCap(d, b, t); }
    forall b, t: nat | BatchTotalCap(e, b, t) ensures Total(e.allocs, BatchKeys(e.allocs, b)) <= t { assert BatchTotalCap(d, b, t); }
    forall b, m: nat | SessionCap(e, b, m) ensures |BatchSessions(e.allocs, e.cands, b)| <= m { assert SessionCap(d, b, m); }
  }
}
