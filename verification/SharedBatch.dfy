/** A batch that two buyers share: when do the limits of one of them hold for all that is held in it? */
module SharedBatch {
  import opened Wrappers
  import opened Rows
  import opened Planning
  import opened Scheduling
  import opened Checkout
  import opened Environment
  import opened Mailbox
  import opened Engine
  import opened Invariants
  import opened Guarantees
  import opened Walks

  // ----- the claim

  /** The buyer of `c` has no other subscription. */
  ghost predicate Sole(db: Db, c: CandId) {
    && c in db.cands && db.cands[c].sub in db.subs
    && forall n :: n in db.subs && db.subs[n].buyer == db.cands[c].buyer ==> n == db.cands[c].sub
  }

  /** `d` is a candidate of another subscription in the batch of `c`. */
  ghost predicate Neighbour(db: Db, c: CandId, d: CandId)
    requires c in db.cands
  {
    d in db.cands && db.cands[d].sub in db.subs && db.cands[d].batch == db.cands[c].batch && db.cands[d].sub != db.cands[c].sub
  }

  /** A batch limit of at most `t` for the buyer of `c`, and of at most `u` for everybody else in the batch. */
  ghost predicate TotalLimits(db: Db, c: CandId, t: nat, u: nat) {
    Sole(db, c) && AtMost(Settings(db, c), t) && forall d :: Neighbour(db, c, d) ==> AtMost(Settings(db, d), u)
  }

  predicate AtMost(g: Config, t: nat) { g.maxBatchTotal.Some? && g.maxBatchTotal.value.minor <= t }

  /** A limit of at most `m` sessions for the buyer of `c`, and of at most `n` for everybody else in the batch. */
  ghost predicate SessionLimits(db: Db, c: CandId, m: nat, n: nat) {
    Sole(db, c) && FewSessions(Settings(db, c), m) && forall d :: Neighbour(db, c, d) ==> FewSessions(Settings(db, d), n)
  }

  predicate FewSessions(g: Config, m: nat) { g.maxSessionsPerBatch.Some? && g.maxSessionsPerBatch.value <= m }

  /** What is held in the batch of `c`, by whomever. */
  ghost function HeldIn(db: Db, c: CandId): int {
    if c in db.cands then Total(db.allocs, BatchKeys(db.allocs, db.cands[c].batch)) else 0
  }

  /** The sessions of the batch of `c` that were ever used, by whomever. */
  function UsedIn(db: Db, c: CandId): set<SessionId> {
    if c in db.cands then BatchSessions(db.allocs, db.cands, db.cands[c].batch) else {}
  }

  ghost predicate SharesTotal(s: Sys, c: CandId, t: nat, u: nat) { Reachable(s) && TotalLimits(s.db, c, t, u) }

  ghost predicate SharesSessions(s: Sys, c: CandId, m: nat, n: nat) { Reachable(s) && SessionLimits(s.db, c, m, n) }

  // ----- a family of runs: one buyer only watches, another books session after session of the same batch

  const USERS := map[1 := Buyer(1, 1), 2 := Buyer(2, 2)]
  const MINE := Candidate(1, 1, 1, 1, 1, true, Queued, 0, 0, None, None, None)
  const SLOT := Candidate(2, 2, 1, 1, 1, true, Queued, 0, 0, None, None, None)

  /** Single tickets of one price, with limits on sessions and amounts per batch. */
  function Terms(price: nat, sessions: Option<nat>, total: Option<Money>): Config {
    Config(1, false, sessions, Some(Money(price, 0)), Some(Money(price, 0)), total, None, None, 1, 1, 1, None)
  }

  function Subs(g: Config, h: Config): map<SubId, Subscription> {
    map[1 := Subscription(1, true, false, 1, g), 2 := Subscription(2, true, false, 1, h)]
  }

  /** Candidate `c` of the second buyer, for the session of the same number. */
  function Slot(c: CandId): Candidate { SLOT.(session := c) }

  /** The second buyer has booked `n` sessions at one price, and nothing else has happened. */
  ghost predicate Shared(db: Db, g: Config, h: Config, price: nat, n: nat) { SharedRows(db, g, h, n) && SharedSums(db, price, n) }

  ghost predicate SharedRows(db: Db, g: Config, h: Config, n: nat) {
    && db.buyers == USERS && db.subs == Subs(g, h) && 1 in db.cands && db.cands[1] == MINE
    && (forall c :: c in db.cands ==> c <= n + 1 && db.cands[c].batch == 1 && db.cands[c].sub in db.subs)
    && (forall k :: k in db.cycles ==> k.cand <= n + 1 && db.cycles[k].dueAt.None?)
    && db.allocs.Keys == db.cycles.Keys
    && (forall k :: k in db.allocs ==> db.allocs[k].active && db.allocs[k].batch == 1 && db.allocs[k].cand in db.cands)
  }

  ghost predicate SharedSums(db: Db, price: nat, n: nat) {
    && Total(db.allocs, BatchKeys(db.allocs, 1)) == n * price
    && |BatchSessions(db.allocs, db.cands, 1)| == n && forall x :: x in BatchSessions(db.allocs, db.cands, 1) ==> x <= n + 1
  }

  /** What the second buyer may still book at the price. */
  predicate Fits(h: Config, price: nat, n: nat) {
    && (h.maxSessionsPerBatch.Some? ==> n < h.maxSessionsPerBatch.value)
    && (h.maxBatchTotal.Some? ==> n * price + price <= h.maxBatchTotal.value.minor)
  }

  /** The slot is added, or claimed, or booked. */
  function Found(db: Db, c: CandId): Db { Put(db.(sessions := db.sessions[c := Session(100)]), c, Slot(c)) }

  function Claimed1(db: Db, c: CandId): Db { Put(Found(db, c), c, Slot(c).(state := RenewalClaimed)) }

  function Request1(h: Config, c: CandId, price: nat): PlanRequest {
    PlanRequest(c, 2, h, Money(price, 0), Some(Money(price, 0)), [7], 0, Some(1))
  }

  function Booked1(db: Db, h: Config, c: CandId, price: nat): Db
    requires h.Valid() && price > 0 && h.OrderTicketCount() == 1
  {
    WithCycle(Claimed1(db, c), Request1(h, c, price))
  }

  lemma Finding(db: Db, g: Config, h: Config, price: nat, n: nat)
    requires Shared(db, g, h, price, n) && !h.individual && Reached(At(db, Idle, [], 0))
    ensures Reached(At(Found(db, n + 2), Idle, [], 0))
  {
    hide Advance, Evaluate, Reconcile, Deliver, Run, ClaimRun, JudgeAnswer, Resume;
    var seen := db.(sessions := db.sessions[n + 2 := Session(100)]);
    Then(At(db, Idle, [], 0), Outside(SessionSeen(n + 2, 100)));
    assert NewSlot(seen, n + 2, Slot(n + 2));
    Then(At(seen, Idle, [], 0), Outside(SlotAdded(n + 2, Slot(n + 2))));
  }

  lemma Starting(db: Db)
    requires Reached(At(db, Idle, [], 0))
    ensures Reached(At(db, Engine.Claiming(0), [], 0))
  {
    hide Evaluate, Reconcile, ClaimRun, Act, Deliver, Work, Dispatch, Run, Resumable;
    var queue: seq<Key> := [];
    Then(At(db, Idle, [], 0), StartRun(queue));
    Then(At(db, Resuming(queue, 0), [], 0), Proceed(0));
  }

  lemma ClaimsSlot(db: Db, g: Config, h: Config, price: nat, n: nat)
    requires Shared(db, g, h, price, n) && h.maxCycles.None?
    ensures var t := MakeTask(n + 2, 2, 0, h); var e := Found(db, n + 2);
      && Due(e, n + 2, 0) && Claims(e, 0, {n + 2}, t) && ClaimedTasks(e, 0, {n + 2}, [t])
      && Claim(e, 0, {n + 2}) == Claimed1(db, n + 2)
  {
    var e, t := Found(db, n + 2), MakeTask(n + 2, 2, 0, h);
    assert [t][0].cand == n + 2;
    ReleasesNothing(db, n);
    ClaimsOne(db, e, n + 2);
  }

  lemma ReleasesNothing(db: Db, n: nat)
    requires forall k :: k in db.cycles ==> db.cycles[k].dueAt.None?
    ensures ReleaseElapsed(Found(db, n + 2), 0) == Found(db, n + 2)
  {
    var e := Found(db, n + 2);
    assert ReleaseElapsed(e, 0).cycles == e.cycles && ReleaseElapsed(e, 0).allocs == e.allocs;
  }

  lemma ClaimsOne(db: Db, e: Db, c: CandId)
    requires e == Found(db, c) && ReleaseElapsed(e, 0) == e && 2 in db.subs && db.subs[2].config.maxCycles.None?
    ensures Claim(e, 0, {c}) == Claimed1(db, c)
  {
    hide ReleaseElapsed;
    assert Claim(e, 0, {c}).cands == Claimed1(db, c).cands;
  }

  lemma ClaimingNext(db: Db, g: Config, h: Config, price: nat, n: nat)
    requires Shared(db, g, h, price, n) && h.maxCycles.None? && Reached(At(Found(db, n + 2), Engine.Claiming(0), [], 0))
    ensures Reached(At(Claimed1(db, n + 2), Renewing([MakeTask(n + 2, 2, 0, h)], 0), [], 0))
  {
    hide Advance, Evaluate, Reconcile, Act, Deliver, Run, Shared, Claim, Claimed1, Found, Claims, Due, ClaimedTasks;
    ClaimsSlot(db, g, h, price, n);
    Then(At(Found(db, n + 2), Engine.Claiming(0), [], 0), ClaimDue({n + 2}, [MakeTask(n + 2, 2, 0, h)]));
  }

  lemma Loading(db: Db, g: Config, h: Config, c: CandId)
    requires db.subs == Subs(g, h) && Reached(At(db, Renewing([MakeTask(c, 2, 0, h)], 0), [], 0))
    ensures Reached(At(db, Evaluating(MakeTask(c, 2, 0, h), [], 0, 0, 1), [], 0))
  {
    hide Advance, Evaluate, Reconcile, ClaimRun, Act, Deliver, Run;
    var t := MakeTask(c, 2, 0, h);
    assert [t][1..] == [];
    Then(At(db, Renewing([t], 0), [], 0), LoadContext);
  }

  lemma Plans1(db: Db, g: Config, h: Config, price: nat, n: nat)
    requires Shared(db, g, h, price, n) && price > 0 && Fits(h, price, n)
    requires h == Terms(price, h.maxSessionsPerBatch, h.maxBatchTotal) && h.Valid()
    ensures var c := n + 2; Plan(Claimed1(db, c), Request1(h, c, price)) == (Booked1(db, h, c, price), Planned(1))
  {
    var e, r := Claimed1(db, n + 2), Request1(h, n + 2, price);
    assert r.WellFormed() && Claimable(e, r);
    SameBatch(db, e);
    FitsBatch(db, g, h, price, n);
  }

  lemma FitsBatch(db: Db, g: Config, h: Config, price: nat, n: nat)
    requires Shared(db, g, h, price, n) && price > 0 && Fits(h, price, n) && h.maxActiveOrders.None? && h.maxActiveTotal.None?
    ensures var e, r := Claimed1(db, n + 2), Request1(h, n + 2, price); !SessionLimitHit(e, e.cands[n + 2], h) && !BudgetHit(e, e.cands[n + 2], r)
  {
    hide Total, BatchKeys, BatchSessions, Subs;
    SameBatch(db, Claimed1(db, n + 2));
  }

  lemma SameBatch(db: Db, e: Db)
    requires e.allocs == db.allocs && forall k :: k in db.allocs ==> Kept(db.cands, e.cands, db.allocs[k].cand)
    ensures BatchKeys(e.allocs, 1) == BatchKeys(db.allocs, 1)
    ensures BatchSessions(e.allocs, e.cands, 1) == BatchSessions(db.allocs, db.cands, 1)
  {}

  lemma Booking(db: Db, g: Config, h: Config, price: nat, n: nat)
    requires Shared(db, g, h, price, n) && price > 0 && Fits(h, price, n)
    requires h == Terms(price, h.maxSessionsPerBatch, h.maxBatchTotal) && h.Valid()
    requires Reached(At(Claimed1(db, n + 2), Evaluating(MakeTask(n + 2, 2, 0, h), [], 0, 0, 1), [], 0))
    ensures Reached(At(Booked1(db, h, n + 2, price), Idle, [], 0))
  {
    hide Advance, Reconcile, ClaimRun, Act, Deliver, Run, Plan, WithCycle, Resumable, ListsResumable, Fits;
    var c := n + 2;
    var s := At(Claimed1(db, c), Evaluating(MakeTask(c, 2, 0, h), [], 0, 0, 1), [], 0);
    var e := Ready([7], Money(price, 0));
    Plans1(db, g, h, price, n);
    assert PlanFor(s, s.flight.task, 0, 1, e, h) == Request1(h, c, price);
    Then(s, Evaluated(e));
    Then(Step(s, Evaluated(e)), Interrupt);
  }

  lemma BookedTotal(db: Db, e: Db, k: Key, l: Allocation)
    requires k !in db.allocs && e.allocs == db.allocs[k := l] && l.active && l.batch == 1
    ensures Total(e.allocs, BatchKeys(e.allocs, 1)) == Total(db.allocs, BatchKeys(db.allocs, 1)) + l.reserved
  {
    var was, now := BatchKeys(db.allocs, 1), BatchKeys(e.allocs, 1);
    assert now == was + {k} && k !in was;
    TotalPick(e.allocs, now, k);
    assert now - {k} == was;
    TotalMonotone(db.allocs, was, e.allocs, was);
    TotalMonotone(e.allocs, was, db.allocs, was);
  }

  predicate Kept(d: map<CandId, Candidate>, e: map<CandId, Candidate>, c: CandId) { c in d && c in e && e[c] == d[c] }

  lemma BookedSessions(db: Db, e: Db, k: Key, l: Allocation)
    requires k !in db.allocs && e.allocs == db.allocs[k := l] && l.batch == 1 && l.cand in e.cands
    requires forall j :: j in db.allocs ==> Kept(db.cands, e.cands, db.allocs[j].cand)
    ensures BatchSessions(e.allocs, e.cands, 1) == BatchSessions(db.allocs, db.cands, 1) + {e.cands[l.cand].session}
  {
    var was, now := BatchSessions(db.allocs, db.cands, 1), BatchSessions(e.allocs, e.cands, 1);
    forall x | x in was ensures x in now {
      var j :| j in db.allocs && db.allocs[j].batch == 1 && db.allocs[j].cand in db.cands && db.cands[db.allocs[j].cand].session == x;
      assert j in e.allocs && e.allocs[j] == db.allocs[j];
    }
    assert k in e.allocs;
  }

  lemma BookedRows(db: Db, g: Config, h: Config, price: nat, n: nat)
    requires Shared(db, g, h, price, n) && price > 0 && h.Valid() && !h.individual && h.ticketCount == 1
    ensures var e, k := Booked1(db, h, n + 2, price), Key(n + 2, 1);
      && k !in db.allocs && e.allocs == db.allocs[k := Allocation(2, 1, n + 2, price, true)]
      && e.cycles == db.cycles[k := Cycle(CycleSubmitting, None, 0, None, 0, None)] && e.subs == db.subs && e.buyers == db.buyers
      && n + 2 !in db.cands && e.cands == db.cands[n + 2 := Slot(n + 2).(state := Submitting, cycleNo := 1)]
  {
    var e := Booked1(db, h, n + 2, price);
    assert e.cands == db.cands[n + 2 := Slot(n + 2).(state := Submitting, cycleNo := 1)];
  }

  lemma BookedIsShared(db: Db, g: Config, h: Config, price: nat, n: nat)
    requires Shared(db, g, h, price, n) && price > 0 && h.Valid() && !h.individual && h.ticketCount == 1
    ensures Shared(Booked1(db, h, n + 2, price), g, h, price, n + 1)
  {
    hide Booked1, BatchKeys, BatchSessions, Total, Terms, Subs, Slot, Shared;
    var e, k, l := Booked1(db, h, n + 2, price), Key(n + 2, 1), Allocation(2, 1, n + 2, price, true);
    BookedRows(db, g, h, price, n);
    SharedKept(db, e, g, h, price, n);
    BookedTotal(db, e, k, l);
    BookedSessions(db, e, k, l);
    assert n * price + price == (n + 1) * price;
    SharedGrows(db, e, g, h, price, n);
  }

  lemma SharedKept(db: Db, e: Db, g: Config, h: Config, price: nat, n: nat)
    requires Shared(db, g, h, price, n) && n + 2 !in db.cands
    requires e.cands == db.cands[n + 2 := Slot(n + 2).(state := Submitting, cycleNo := 1)]
    ensures forall j :: j in db.allocs ==> Kept(db.cands, e.cands, db.allocs[j].cand)
    ensures n + 2 in e.cands && e.cands[n + 2].session == n + 2 && n + 2 !in BatchSessions(db.allocs, db.cands, 1)
    ensures Total(db.allocs, BatchKeys(db.allocs, 1)) == n * price && |BatchSessions(db.allocs, db.cands, 1)| == n
  {}

  lemma SharedGrows(db: Db, e: Db, g: Config, h: Config, price: nat, n: nat)
    requires Shared(db, g, h, price, n)
    requires var k := Key(n + 2, 1);
      && k !in db.allocs && e.allocs == db.allocs[k := Allocation(2, 1, n + 2, price, true)]
      && e.cycles == db.cycles[k := Cycle(CycleSubmitting, None, 0, None, 0, None)] && e.subs == db.subs && e.buyers == db.buyers
      && n + 2 !in db.cands && e.cands == db.cands[n + 2 := Slot(n + 2).(state := Submitting, cycleNo := 1)]
    requires Total(e.allocs, BatchKeys(e.allocs, 1)) == (n + 1) * price
    requires BatchSessions(e.allocs, e.cands, 1) == BatchSessions(db.allocs, db.cands, 1) + {n + 2}
    ensures Shared(e, g, h, price, n + 1)
  {
    hide BatchKeys, BatchSessions, Total, SharedRows;
    SharedRowsGrow(db, e, g, h, n, price);
  }

  lemma SharedRowsGrow(db: Db, e: Db, g: Config, h: Config, n: nat, price: nat)
    requires SharedRows(db, g, h, n)
    requires var k := Key(n + 2, 1);
      && k !in db.allocs && e.allocs == db.allocs[k := Allocation(2, 1, n + 2, price, true)]
      && e.cycles == db.cycles[k := Cycle(CycleSubmitting, None, 0, None, 0, None)] && e.subs == db.subs && e.buyers == db.buyers
      && n + 2 !in db.cands && e.cands == db.cands[n + 2 := Slot(n + 2).(state := Submitting, cycleNo := 1)]
    ensures SharedRows(e, g, h, n + 1)
  {}

  /** One session more is seen, found and booked. */
  lemma OneMore(db: Db, g: Config, h: Config, price: nat, n: nat)
    requires Shared(db, g, h, price, n) && price > 0 && Fits(h, price, n)
    requires h == Terms(price, h.maxSessionsPerBatch, h.maxBatchTotal) && h.Valid() && Reached(At(db, Idle, [], 0))
    ensures exists e :: Shared(e, g, h, price, n + 1) && Reached(At(e, Idle, [], 0))
  {
    hide Reached, Run;
    Finding(db, g, h, price, n);
    Starting(Found(db, n + 2));
    ClaimingNext(db, g, h, price, n);
    Loading(Claimed1(db, n + 2), g, h, n + 2);
    Booking(db, g, h, price, n);
    BookedIsShared(db, g, h, price, n);
  }

  function Watched(g: Config, h: Config): Db {
    NoDb.(buyers := USERS, subs := Subs(g, h), sessions := map[1 := Session(100)], cands := map[1 := MINE])
  }

  lemma Subscribing(g: Config, h: Config)
    requires g.Valid() && h.Valid()
    ensures Reached(At(NoDb.(buyers := USERS, subs := Subs(g, h)), Down, [], 0))
  {
    hide Advance, Evaluate, Reconcile, ClaimRun, Deliver, Run;
    Begin();
    Then(At(NoDb, Down, [], 0), Outside(UserSubscribes(1, 1, Buyer(1, 1), g)));
    var one := NoDb.(buyers := map[1 := Buyer(1, 1)], subs := map[1 := Subscription(1, true, false, 1, g)]);
    Then(At(one, Down, [], 0), Outside(UserSubscribes(2, 2, Buyer(2, 2), h)));
  }

  lemma Watching(g: Config, h: Config)
    requires g.Valid() && h.Valid() && !g.individual
    ensures Reached(At(Watched(g, h), Down, [], 0))
  {
    hide Advance, Evaluate, Reconcile, ClaimRun, Deliver, Run;
    Subscribing(g, h);
    var two := NoDb.(buyers := USERS, subs := Subs(g, h));
    Then(At(two, Down, [], 0), Outside(SessionSeen(1, 100)));
    var seen := two.(sessions := map[1 := Session(100)]);
    assert NewSlot(seen, 1, MINE);
    Then(At(seen, Down, [], 0), Outside(SlotAdded(1, MINE)));
  }

  lemma NothingShared(g: Config, h: Config, price: nat)
    ensures Shared(Watched(g, h), g, h, price, 0)
  {
    assert BatchKeys(map[], 1) == {};
    assert BatchSessions(map[], map[1 := MINE], 1) == {};
  }

  lemma {:induction false} BooksOn(g: Config, h: Config, price: nat, n: nat)
    requires g.Valid() && h.Valid() && !g.individual && price > 0 && h == Terms(price, h.maxSessionsPerBatch, h.maxBatchTotal)
    requires forall i: nat :: i < n ==> Fits(h, price, i)
    ensures exists db :: Shared(db, g, h, price, n) && Reached(At(db, Idle, [], 0))
  {
    hide Reached, Run;
    if n == 0 {
      Watching(g, h);
      Idles(Watched(g, h));
      NothingShared(g, h, price);
    } else {
      BooksOn(g, h, price, n - 1);
      var db :| Shared(db, g, h, price, n - 1) && Reached(At(db, Idle, [], 0));
      OneMore(db, g, h, price, n - 1);
    }
  }

  lemma Books(g: Config, h: Config, price: nat, n: nat)
    requires g.Valid() && h.Valid() && !g.individual && price > 0 && h == Terms(price, h.maxSessionsPerBatch, h.maxBatchTotal)
    requires forall i: nat :: i < n ==> Fits(h, price, i)
    ensures exists db :: Shared(db, g, h, price, n) && Reachable(At(db, Idle, [], 0))
  {
    hide Run, Shared;
    BooksOn(g, h, price, n);
    var db :| Shared(db, g, h, price, n) && Reached(At(db, Idle, [], 0));
    ReachedIsReachable(At(db, Idle, [], 0));
  }

  // ----- when a limit holds for the whole batch

  /** A buyer's limit on amounts holds for the whole batch exactly if nobody else in it may book for more. */
  lemma TotalExactly(t: nat, u: nat)
    requires u > 0
    ensures (forall s, c :: SharesTotal(s, c, t, u) ==> HeldIn(s.db, c) <= t) <==> u <= t
  {
    hide Reachable, Run;
    if u <= t {
      forall s, c | SharesTotal(s, c, t, u) ensures HeldIn(s.db, c) <= t { TotalRespected(s, c, t, u); }
    } else {
      TotalExceeded(t, u);
    }
  }

  lemma TotalRespected(s: Sys, c: CandId, t: nat, u: nat)
    requires SharesTotal(s, c, t, u) && u <= t
    ensures HeldIn(s.db, c) <= t
  {
    hide Reachable, Run;
    TotalCapped(s.db, c, t, u);
    BatchLimits(s, s.db.cands[c].batch);
  }

  lemma TotalCapped(db: Db, c: CandId, t: nat, u: nat)
    requires TotalLimits(db, c, t, u) && u <= t
    ensures BatchTotalCap(db, db.cands[c].batch, t)
  {
    forall d | d in db.cands && db.cands[d].batch == db.cands[c].batch && db.cands[d].sub in db.subs
      ensures AtMost(Settings(db, d), t)
    { if db.cands[d].sub != db.cands[c].sub { assert Neighbour(db, c, d); } }
  }

  lemma TotalShared(db: Db, g: Config, h: Config, price: nat, t: nat, u: nat)
    requires Shared(db, g, h, price, 1) && AtMost(g, t) && AtMost(h, u)
    ensures TotalLimits(db, 1, t, u) && HeldIn(db, 1) == price
  {}

  lemma TotalExceeded(t: nat, u: nat)
    requires u > t
    ensures exists s, c :: SharesTotal(s, c, t, u) && HeldIn(s.db, c) == u
  {
    hide Reachable, Run, Shared, TotalLimits, HeldIn;
    var g, h := Terms(u, None, Some(Money(t, 0))), Terms(u, None, Some(Money(u, 0)));
    Books(g, h, u, 1);
    var db :| Shared(db, g, h, u, 1) && Reachable(At(db, Idle, [], 0));
    TotalShared(db, g, h, u, t, u);
    assert SharesTotal(At(db, Idle, [], 0), 1, t, u);
  }

  /** So with sessions: a buyer's limit holds for the batch exactly if nobody else in it may use more of them. */
  lemma SessionsExactly(m: nat, n: nat)
    requires m > 0
    ensures (forall s, c :: SharesSessions(s, c, m, n) ==> |UsedIn(s.db, c)| <= m) <==> n <= m
  {
    hide Reachable, Run;
    if n <= m {
      forall s, c | SharesSessions(s, c, m, n) ensures |UsedIn(s.db, c)| <= m { SessionsRespected(s, c, m, n); }
    } else {
      SessionsExceeded(m, n);
    }
  }

  lemma SessionsRespected(s: Sys, c: CandId, m: nat, n: nat)
    requires SharesSessions(s, c, m, n) && n <= m
    ensures |UsedIn(s.db, c)| <= m
  {
    hide Reachable, Run;
    SessionsCapped(s.db, c, m, n);
    BatchLimits(s, s.db.cands[c].batch);
  }

  lemma SessionsCapped(db: Db, c: CandId, m: nat, n: nat)
    requires SessionLimits(db, c, m, n) && n <= m
    ensures SessionCap(db, db.cands[c].batch, m)
  {
    forall d | d in db.cands && db.cands[d].batch == db.cands[c].batch && db.cands[d].sub in db.subs
      ensures FewSessions(Settings(db, d), m)
    { if db.cands[d].sub != db.cands[c].sub { assert Neighbour(db, c, d); } }
  }

  lemma SessionsShared(db: Db, g: Config, h: Config, price: nat, m: nat, n: nat)
    requires Shared(db, g, h, price, n) && FewSessions(g, m) && FewSessions(h, n)
    ensures SessionLimits(db, 1, m, n) && |UsedIn(db, 1)| == n
  {}

  lemma SessionsExceeded(m: nat, n: nat)
    requires 0 < m < n
    ensures exists s, c :: SharesSessions(s, c, m, n) && |UsedIn(s.db, c)| == n
  {
    hide Reachable, Run, Shared, SessionLimits, UsedIn;
    var g, h := Terms(1, Some(m), None), Terms(1, Some(n), None);
    Books(g, h, 1, n);
    var db :| Shared(db, g, h, 1, n) && Reachable(At(db, Idle, [], 0));
    SessionsShared(db, g, h, 1, m, n);
    assert SharesSessions(At(db, Idle, [], 0), 1, m, n);
  }
}
