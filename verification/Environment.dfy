/** What users and the catalogue do to the tables between two steps of the booking workers. */
module Environment {
  import opened Wrappers
  import opened Rows
  import opened Planning
  import opened Scheduling
  import opened Checkout
  import opened Invariants
  import opened Preservation

  function StopByUser(db: Db, c: CandId): Db {
    if c in db.cands then Put(db, c, Halted(db.cands[c])) else db
  }

  /** Pausing, resuming and deleting a subscription give it a new version. */
  function SetEnabled(db: Db, s: SubId, enabled: bool): Db {
    if s in db.subs && !db.subs[s].deleted then
      var r := db.subs[s];
      db.(subs := db.subs[s := r.(enabled := enabled, version := r.version + 1)])
    else db
  }

  function DeleteSubscription(db: Db, s: SubId): Db {
    if s in db.subs && !db.subs[s].deleted then
      var r := db.subs[s];
      db.(subs := db.subs[s := r.(enabled := false, deleted := true, version := r.version + 1)])
    else db
  }

  function AddSubscription(db: Db, s: SubId, buyer: BuyerId, row: Buyer, g: Config): Db {
    if s !in db.subs && g.Valid() then
      db.(subs := db.subs[s := Subscription(buyer, true, false, 1, g)],
          buyers := db.buyers[buyer := if buyer in db.buyers then row.(user := db.buyers[buyer].user) else row])
    else db
  }

  /** Discovery records a session, new or seen before, and a candidate slot for it. */
  function SeeSession(db: Db, s: SessionId, startsAt: Time): Db {
    db.(sessions := db.sessions[s := Session(startsAt)])
  }

  ghost predicate NewSlot(db: Db, c: CandId, a: Candidate) {
    && c !in db.cands && a.sub in db.subs && a.session in db.sessions && a.buyer in db.buyers
    && db.subs[a.sub].buyer == a.buyer && (a.ticketNo > 0 <==> db.subs[a.sub].config.individual)
    && a.state.Queued? && a.cycleNo == 0 && a.target.None? && a.nextRunAt.None?
    && (forall k :: k in db.cycles ==> k.cand != c)
  }

  ghost function AddSlot(db: Db, c: CandId, a: Candidate): Db {
    if NewSlot(db, c, a) then Put(db, c, a) else db
  }

  /** Catalogue rows are added or refreshed, slots are added, and no booking row changes. */
  ghost predicate Grows(d: Db, e: Db) {
    && e.cycles == d.cycles && e.intents == d.intents && e.allocs == d.allocs && e.orders == d.orders && e.msgs == d.msgs
    && (forall s :: s in d.sessions ==> s in e.sessions)
    && (forall b :: b in d.buyers ==> b in e.buyers)
    && SubscriptionsGrow(d.subs, e.subs) && SlotsGrow(d, e.cands)
  }

  ghost predicate SubscriptionsGrow(d: map<SubId, Subscription>, e: map<SubId, Subscription>) {
    && (forall s :: s in d ==> s in e && e[s].config == d[s].config && e[s].buyer == d[s].buyer)
    && (forall s :: s in e ==> e[s].config.Valid())
  }

  ghost predicate SlotsGrow(d: Db, e: map<CandId, Candidate>) {
    && (forall c :: c in d.cands ==> c in e && e[c] == d.cands[c])
    && (forall c :: c in e && c !in d.cands ==> NewSlot(d, c, e[c]))
  }

  lemma GrowsTables(d: Db, e: Db)
    requires Tables(d) && SeatsDiffer(d) && Timing(d) && Mail(d) && Grows(d, e)
    ensures Tables(e) && SeatsDiffer(e) && Timing(e) && Mail(e)
  {
    hide CandidateInv, Timing, SeatsDiffer, Mail, NewSlot;
    forall c | c in e.cands ensures CandidateInv(e, e.cands[c]) { GrowsCandidate(d, e, c); }
    forall k ensures k in e.cycles <==> k.cand in e.cands && 1 <= k.no <= e.cands[k.cand].cycleNo { GrowsCycle(d, e, k); }
    GrowsSeats(d, e);
    SameMail(d, e);
  }

  lemma GrowsCandidate(d: Db, e: Db, c: CandId)
    requires Tables(d) && Grows(d, e) && c in e.cands
    ensures CandidateInv(e, e.cands[c])
  {
    if c in d.cands { assert CandidateInv(d, d.cands[c]); }
  }

  lemma GrowsCycle(d: Db, e: Db, k: Key)
    requires Tables(d) && Grows(d, e)
    ensures k in e.cycles <==> k.cand in e.cands && 1 <= k.no <= e.cands[k.cand].cycleNo
  {
    if k.cand in e.cands && k.cand !in d.cands { assert NewSlot(d, k.cand, e.cands[k.cand]); }
  }

  lemma GrowsSeats(d: Db, e: Db)
    requires Tables(d) && SeatsDiffer(d) && Timing(d) && Grows(d, e)
    ensures SeatsDiffer(e) && Timing(e)
  {}

  lemma GrowsRows(d: Db, e: Db)
    requires AllRows(d) && Grows(d, e)
    ensures AllRows(e)
  {}

  lemma GrowsBatch(d: Db, e: Db, b: BatchId)
    requires Tables(d) && AllRows(d) && Grows(d, e)
    ensures BatchSessions(e.allocs, e.cands, b) == BatchSessions(d.allocs, d.cands, b)
    ensures forall t: nat :: BatchTotalCap(e, b, t) ==> BatchTotalCap(d, b, t)
    ensures forall m: nat :: SessionCap(e, b, m) ==> SessionCap(d, b, m)
  {}

  /** New slots hold nothing, and what is held for a subscription stays held for it. */
  lemma GrowsOwnKeys(d: Db, e: Db, n: SubId)
    requires AllRows(d) && d.allocs.Keys == d.cycles.Keys && Grows(d, e)
    ensures OwnKeys(e.allocs, e.cands, n) == OwnKeys(d.allocs, d.cands, n)
    ensures forall b :: OwnBatchKeys(e.allocs, e.cands, n, b) == OwnBatchKeys(d.allocs, d.cands, n, b)
  {
    forall k | k in d.allocs ensures d.allocs[k].cand in d.cands { assert RowsAt(d, k); }
  }

  lemma NobodyOwns(d: Db, n: SubId)
    requires Tables(d) && n !in d.subs
    ensures OwnKeys(d.allocs, d.cands, n) == {} && forall b :: OwnBatchKeys(d.allocs, d.cands, n, b) == {}
  {
    forall c | c in d.cands ensures d.cands[c].sub != n { assert CandidateInv(d, d.cands[c]); }
  }

  lemma GrowsOwn(d: Db, e: Db, n: SubId)
    requires Tables(d) && AllRows(d) && Caps(d) && Grows(d, e) && n in e.subs
    ensures OwnCaps(e, n)
  {
    hide AllRows, RowsAt, RowInv;
    GrowsOwnKeys(d, e, n);
    if n in d.subs { assert OwnCaps(d, n); } else { NobodyOwns(d, n); }
  }

  lemma GrowsCaps(d: Db, e: Db)
    requires Tables(d) && AllRows(d) && Caps(d) && Grows(d, e)
    ensures Caps(e)
  {
    hide AllRows, RowsAt, RowInv;
    forall n | n in e.subs ensures OwnCaps(e, n) { GrowsOwn(d, e, n); }
    forall b, m: nat | CountCap(e, b, m) ensures |BuyerKeys(e.allocs, b)| <= m { assert CountCap(d, b, m); }
    forall b, t: nat | TotalCap(e, b, t) ensures Total(e.allocs, BuyerKeys(e.allocs, b)) <= t { assert TotalCap(d, b, t); }
    forall b, t: nat | BatchTotalCap(e, b, t) ensures Total(e.allocs, BatchKeys(e.allocs, b)) <= t { GrowsBatch(d, e, b); }
    forall b, m: nat | SessionCap(e, b, m) ensures |BatchSessions(e.allocs, e.cands, b)| <= m { GrowsBatch(d, e, b); }
  }

  lemma GrowsKeeps(d: Db, e: Db)
    requires Inv(d) && Grows(d, e)
    ensures Inv(e)
  {
    GrowsTables(d, e);
    GrowsRows(d, e);
    GrowsCaps(d, e);
  }

  datatype Action =
    | UserStops(c: CandId)
    | UserEnables(s: SubId, enabled: bool)
    | UserDeletes(s: SubId)
    | UserSubscribes(s: SubId, buyer: BuyerId, row: Buyer, g: Config)
    | SessionSeen(session: SessionId, startsAt: Time)
    | SlotAdded(c: CandId, a: Candidate)

  ghost function Act(db: Db, x: Action): Db {
    match x
    case UserStops(c) => StopByUser(db, c)
    case UserEnables(s, on) => SetEnabled(db, s, on)
    case UserDeletes(s) => DeleteSubscription(db, s)
    case UserSubscribes(s, b, row, g) => AddSubscription(db, s, b, row, g)
    case SessionSeen(s, t) => SeeSession(db, s, t)
    case SlotAdded(c, a) => AddSlot(db, c, a)
  }

  ghost predicate ValidSettings(db: Db) {
    forall s :: s in db.subs ==> db.subs[s].config.Valid()
  }

  lemma SubscriptionGrows(db: Db, s: SubId, r: Subscription)
    requires ValidSettings(db) && s in db.subs && r.config == db.subs[s].config && r.buyer == db.subs[s].buyer
    ensures Grows(db, db.(subs := db.subs[s := r]))
  {}

  lemma SubscriberGrows(db: Db, s: SubId, buyer: BuyerId, row: Buyer, g: Config)
    requires ValidSettings(db) && s !in db.subs && g.Valid()
    ensures Grows(db, AddSubscription(db, s, buyer, row, g))
  {}

  lemma SessionGrows(db: Db, s: SessionId, t: Time)
    requires ValidSettings(db)
    ensures Grows(db, SeeSession(db, s, t)) && Grows(db, db)
  {}

  lemma SlotGrows(db: Db, c: CandId, a: Candidate)
    requires ValidSettings(db)
    ensures Grows(db, AddSlot(db, c, a))
  {}

  lemma ActGrows(db: Db, x: Action)
    requires ValidSettings(db)
    ensures Grows(db, Act(db, x)) || (x.UserStops? && x.c in db.cands)
  {
    hide Grows;
    SessionGrows(db, 0, 0);
    match x
    case UserStops(_) =>
    case UserEnables(s, on) =>
      if s in db.subs {
        var r := db.subs[s];
        SubscriptionGrows(db, s, r.(enabled := on, version := r.version + 1));
      }
    case UserDeletes(s) =>
      if s in db.subs {
        var r := db.subs[s];
        SubscriptionGrows(db, s, r.(enabled := false, deleted := true, version := r.version + 1));
      }
    case UserSubscribes(s, b, row, g) => if s !in db.subs && g.Valid() { SubscriberGrows(db, s, b, row, g); }
    case SessionSeen(s, t) => SessionGrows(db, s, t);
    case SlotAdded(c, a) => SlotGrows(db, c, a);
  }

  lemma ActKeeps(db: Db, x: Action)
    requires Inv(db)
    ensures Inv(Act(db, x))
  {
    ActGrows(db, x);
    if Grows(db, Act(db, x)) {
      GrowsKeeps(db, Act(db, x));
    } else {
      PutKeeps(db, x.c, Halted(db.cands[x.c]));
    }
  }
}
