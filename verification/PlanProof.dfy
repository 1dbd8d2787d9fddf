/** Planning keeps the invariant: limits are respected, seats stay distinct and cycles follow each other in time. */
module PlanProof {
  import opened Wrappers
  import opened Rows
  import opened Planning
  import opened Scheduling
  import opened Checkout
  import opened Invariants
  import opened Preservation

  /** What the caller has established before it asks for a plan. */
  ghost predicate PlanReady(db: Db, r: PlanRequest) {
    && r.config.Valid()
    && (r.cand in db.cands && db.cands[r.cand].sub == r.sub ==>
          && r.sub in db.subs && r.config == db.subs[r.sub].config
          && (r.config.maxCycles.Some? ==> db.cands[r.cand].cycleNo < r.config.maxCycles.value)
          && (forall k :: k in db.cycles && k.cand == r.cand && db.cycles[k].dueAt.Some? ==> db.cycles[k].dueAt.value <= r.now))
  }

  /** The plan went through: every check has passed. */
  ghost predicate Admitted(db: Db, r: PlanRequest) {
    && PlanReady(db, r) && r.WellFormed() && Claimable(db, r)
    && !SlotRaises(db.cands[r.cand], r)
    && !(r.config.individual && Occupied(db, r.cand, r.seats[0]))
    && !SessionLimitHit(db, db.cands[r.cand], r.config)
    && !BudgetHit(db, db.cands[r.cand], r)
  }

  function NewKey(db: Db, r: PlanRequest): Key
    requires r.cand in db.cands
  {
    Key(r.cand, db.cands[r.cand].cycleNo + 1)
  }

  lemma AddCandidate(db: Db, r: PlanRequest, c: CandId)
    requires Admitted(db, r) && c in db.cands && CandidateInv(db, db.cands[c]) && CandidateInv(db, db.cands[r.cand])
    ensures CandidateInv(WithCycle(db, r), WithCycle(db, r).cands[c])
  {}

  lemma AddKey(db: Db, r: PlanRequest, k: Key)
    requires r.cand in db.cands && r.WellFormed() && r.config.Valid()
    requires k in db.cycles <==> k.cand in db.cands && 1 <= k.no <= db.cands[k.cand].cycleNo
    ensures var e := WithCycle(db, r); k in e.cycles <==> k.cand in e.cands && 1 <= k.no <= e.cands[k.cand].cycleNo
  {}

  lemma AddTables(db: Db, r: PlanRequest)
    requires Tables(db) && Admitted(db, r)
    ensures NewKey(db, r) !in db.cycles && NewKey(db, r) !in db.orders
    ensures Tables(WithCycle(db, r))
  {
    hide WithCycle, CandidateInv, Admitted;
    AddKeys(db, r);
    var e := WithCycle(db, r);
    var n := NewKey(db, r);
    forall c | c in e.cands ensures CandidateInv(e, e.cands[c]) { AddCandidate(db, r, c); }
    forall k ensures k in e.cycles <==> k.cand in e.cands && 1 <= k.no <= e.cands[k.cand].cycleNo { AddKey(db, r, k); }
  }

  lemma AddKeys(db: Db, r: PlanRequest)
    requires Tables(db) && Admitted(db, r)
    ensures r.cand in db.cands && CandidateInv(db, db.cands[r.cand]) && r.WellFormed() && r.config.Valid()
    ensures NewKey(db, r) !in db.cycles && NewKey(db, r) !in db.orders
    ensures var e, n := WithCycle(db, r), NewKey(db, r);
      && e.subs == db.subs && e.orders == db.orders && e.cands.Keys == db.cands.Keys
      && e.cycles.Keys == db.cycles.Keys + {n} && e.intents.Keys == db.intents.Keys + {n} && e.allocs.Keys == db.allocs.Keys + {n}
  {}

  lemma AddRow(db: Db, r: PlanRequest, j: Key)
    requires Admitted(db, r) && r.cand in db.cands && AtRest(db, r.cand)
    requires NewKey(db, r) !in db.orders
    requires j == NewKey(db, r) || RowsAt(db, j)
    ensures RowsAt(WithCycle(db, r), j)
  {}

  lemma AddRows(db: Db, r: PlanRequest)
    requires Tables(db) && AllRows(db) && Admitted(db, r)
    ensures AllRows(WithCycle(db, r))
  {
    RunnableIsAtRest(db, r.cand);
    AddTables(db, r);
    var e := WithCycle(db, r);
    forall j | j in e.cycles ensures RowsAt(e, j) {
      if j != NewKey(db, r) { assert RowsAt(db, j); }
      AddRow(db, r, j);
    }
  }

  lemma AddTiming(db: Db, r: PlanRequest)
    requires Tables(db) && Timing(db) && Admitted(db, r)
    ensures Timing(WithCycle(db, r))
  {}

  lemma AddSeats(db: Db, r: PlanRequest)
    requires Tables(db) && SeatsDiffer(db) && Admitted(db, r)
    ensures SeatsDiffer(WithCycle(db, r))
  {}

  lemma AddSum(allocs: map<Key, Allocation>, k: Key, l: Allocation, ks: set<Key>)
    requires ks <= allocs.Keys && k !in allocs
    ensures Total(allocs[k := l], ks + {k}) == Total(allocs, ks) + l.reserved
  {
    var bigger := allocs[k := l];
    TotalPick(bigger, ks + {k}, k);
    assert ks + {k} - {k} == ks;
    TotalMonotone(allocs, ks, bigger, ks);
    TotalMonotone(bigger, ks, allocs, ks);
  }

  /** A new active allocation joins the keys of its buyer, and its amount joins their total. */
  lemma AddBuyerKeys(allocs: map<Key, Allocation>, k: Key, l: Allocation, b: BuyerId)
    requires k !in allocs && l.active
    ensures var ks, new_ := BuyerKeys(allocs, b), BuyerKeys(allocs[k := l], b);
      && |new_| == |ks| + (if l.buyer == b then 1 else 0)
      && Total(allocs[k := l], new_) == Total(allocs, ks) + (if l.buyer == b then l.reserved else 0)
  {
    var ks, new_ := BuyerKeys(allocs, b), BuyerKeys(allocs[k := l], b);
    if l.buyer == b {
      assert new_ == ks + {k};
      AddSum(allocs, k, l, ks);
    } else {
      assert new_ == ks;
      SameSum(allocs, k, l, ks);
    }
  }

  lemma AddBatchKeys(allocs: map<Key, Allocation>, k: Key, l: Allocation, b: BatchId)
    requires k !in allocs && l.active
    ensures Total(allocs[k := l], BatchKeys(allocs[k := l], b))
         == Total(allocs, BatchKeys(allocs, b)) + (if l.batch == b then l.reserved else 0)
  {
    var ks, new_ := BatchKeys(allocs, b), BatchKeys(allocs[k := l], b);
    if l.batch == b {
      assert new_ == ks + {k};
      AddSum(allocs, k, l, ks);
    } else {
      assert new_ == ks;
      SameSum(allocs, k, l, ks);
    }
  }

  lemma SameSum(allocs: map<Key, Allocation>, k: Key, l: Allocation, ks: set<Key>)
    requires ks <= allocs.Keys && k !in allocs
    ensures Total(allocs[k := l], ks) == Total(allocs, ks)
  {
    TotalMonotone(allocs, ks, allocs[k := l], ks);
    TotalMonotone(allocs[k := l], ks, allocs, ks);
  }

  lemma AddSessions(allocs: map<Key, Allocation>, k: Key, l: Allocation, cands: map<CandId, Candidate>, c: CandId,
                    a: Candidate, b: BatchId)
    requires k !in allocs && c in cands && l.cand == c && a.session == cands[c].session
    ensures BatchSessions(allocs[k := l], cands[c := a], b)
         == BatchSessions(allocs, cands, b) + (if l.batch == b then {a.session} else {})
  {
    var before, after := BatchSessions(allocs, cands, b), BatchSessions(allocs[k := l], cands[c := a], b);
    forall s | s in after ensures s in before + (if l.batch == b then {a.session} else {}) {
      var j :| j in allocs[k := l] && allocs[k := l][j].batch == b && allocs[k := l][j].cand in cands[c := a]
               && cands[c := a][allocs[k := l][j].cand].session == s;
      if j != k { assert allocs[j].cand in cands && cands[allocs[j].cand].session == s; }
    }
    forall s | s in before ensures s in after {
      var j :| j in allocs && allocs[j].batch == b && allocs[j].cand in cands && cands[allocs[j].cand].session == s;
      assert allocs[k := l][j] == allocs[j] && cands[c := a][allocs[j].cand].session == s;
    }
    if l.batch == b { assert allocs[k := l][k].batch == b && cands[c := a][c].session == a.session; }
  }

  /** The parts of the tables that the limits look at, after the plan. */
  lemma AddFrame(db: Db, r: PlanRequest)
    requires Tables(db) && Admitted(db, r)
    ensures var e := WithCycle(db, r); var k := NewKey(db, r); var a := db.cands[r.cand];
      && k !in db.allocs && e.subs == db.subs
      && e.allocs == db.allocs[k := Allocation(a.buyer, a.batch, r.cand, r.reserved.minor, true)]
      && e.cands == db.cands[r.cand := e.cands[r.cand]]
      && SameIdentity(a, e.cands[r.cand].(cycleNo := a.cycleNo, target := None))
      && r.sub in db.subs && db.subs[r.sub].buyer == a.buyer && db.subs[r.sub].config == r.config
  {}

  lemma AddBuyer(db: Db, r: PlanRequest, b: BuyerId)
    requires Tables(db) && Caps(db) && Admitted(db, r)
    ensures var e := WithCycle(db, r);
      && (forall m: nat :: CountCap(e, b, m) ==> |BuyerKeys(e.allocs, b)| <= m)
      && (forall t: nat :: TotalCap(e, b, t) ==> Total(e.allocs, BuyerKeys(e.allocs, b)) <= t)
  {
    AddFrame(db, r);
    var e := WithCycle(db, r);
    var k := NewKey(db, r);
    AddBuyerKeys(db.allocs, k, e.allocs[k], b);
    forall m: nat | CountCap(e, b, m) ensures |BuyerKeys(e.allocs, b)| <= m { assert CountCap(db, b, m); }
    forall t: nat | TotalCap(e, b, t) ensures Total(e.allocs, BuyerKeys(e.allocs, b)) <= t { assert TotalCap(db, b, t); }
  }

  lemma SameSettings(db: Db, r: PlanRequest, b: BatchId)
    requires Tables(db) && Admitted(db, r)
    ensures forall t: nat :: BatchTotalCap(WithCycle(db, r), b, t) ==>
      BatchTotalCap(db, b, t) && (db.cands[r.cand].batch == b ==>
        r.config.maxBatchTotal.Some? && r.config.maxBatchTotal.value.minor <= t)
    ensures forall m: nat :: SessionCap(WithCycle(db, r), b, m) ==>
      SessionCap(db, b, m) && (db.cands[r.cand].batch == b ==>
        r.config.maxSessionsPerBatch.Some? && r.config.maxSessionsPerBatch.value <= m)
  {
    AddFrame(db, r);
    var e := WithCycle(db, r);
    forall c | c in db.cands && db.cands[c].sub in db.subs
      ensures c in e.cands && e.cands[c].batch == db.cands[c].batch && e.cands[c].sub == db.cands[c].sub
           && Settings(e, c) == Settings(db, c)
    {}
  }

  lemma AddBatch(db: Db, r: PlanRequest, b: BatchId)
    requires Tables(db) && Caps(db) && Admitted(db, r)
    ensures var e := WithCycle(db, r);
      && (forall t: nat :: BatchTotalCap(e, b, t) ==> Total(e.allocs, BatchKeys(e.allocs, b)) <= t)
      && (forall m: nat :: SessionCap(e, b, m) ==> |BatchSessions(e.allocs, e.cands, b)| <= m)
  {
    hide Tables, CandidateInv;
    AddFrame(db, r);
    SameSettings(db, r, b);
    var e := WithCycle(db, r);
    var k := NewKey(db, r);
    AddBatchKeys(db.allocs, k, e.allocs[k], b);
    AddSessions(db.allocs, k, e.allocs[k], db.cands, r.cand, e.cands[r.cand], b);
  }

  /** What is held for a subscription is part of what its buyer holds. */
  lemma OwnOfBuyer(db: Db, n: SubId, b: BuyerId)
    requires Tables(db) && AllRows(db) && n in db.subs && db.subs[n].buyer == b
    ensures OwnKeys(db.allocs, db.cands, n) <= BuyerKeys(db.allocs, b)
  {
    forall k | k in OwnKeys(db.allocs, db.cands, n) ensures k in BuyerKeys(db.allocs, b) {
      assert RowsAt(db, k) && CandidateInv(db, db.cands[k.cand]);
    }
  }

  lemma AddOwnKeys(db: Db, r: PlanRequest, n: SubId)
    requires Tables(db) && Admitted(db, r)
    ensures var e := WithCycle(db, r);
      OwnKeys(e.allocs, e.cands, n) == OwnKeys(db.allocs, db.cands, n) + (if n == r.sub then {NewKey(db, r)} else {})
  {
    AddFrame(db, r);
    var e := WithCycle(db, r);
    forall c | c in db.cands ensures e.cands[c].sub == db.cands[c].sub {}
  }

  lemma AddOwnBatchKeys(db: Db, r: PlanRequest, n: SubId, b: BatchId)
    requires Tables(db) && Admitted(db, r)
    ensures var e := WithCycle(db, r);
      OwnBatchKeys(e.allocs, e.cands, n, b) == OwnBatchKeys(db.allocs, db.cands, n, b)
        + (if n == r.sub && b == db.cands[r.cand].batch then {NewKey(db, r)} else {})
  {
    AddOwnKeys(db, r, n);
    AddFrame(db, r);
  }

  lemma AddShare(db: Db, r: PlanRequest, own: set<Key>, all: set<Key>)
    requires Tables(db) && Admitted(db, r) && own <= all <= db.allocs.Keys && NewKey(db, r) !in db.allocs
    ensures var e := WithCycle(db, r); var k := NewKey(db, r);
      && Total(e.allocs, own) == Total(db.allocs, own) <= Total(db.allocs, all)
      && Total(e.allocs, own + {k}) == Total(db.allocs, own) + r.reserved.minor
      && |own + {k}| == |own| + 1 && |own| <= |all|
  {
    AddFrame(db, r);
    var e := WithCycle(db, r);
    var k := NewKey(db, r);
    SameSum(db.allocs, k, e.allocs[k], own);
    AddSum(db.allocs, k, e.allocs[k], own);
    TotalMonotone(db.allocs, own, db.allocs, all);
    Subset(own, all);
  }

  lemma AddOwn(db: Db, r: PlanRequest, n: SubId)
    requires Tables(db) && AllRows(db) && Caps(db) && Admitted(db, r) && n in db.subs
    ensures OwnCaps(WithCycle(db, r), n)
  {
    hide Tables, CandidateInv, AllRows, RowsAt, RowInv;
    AddFrame(db, r);
    AddOwnKeys(db, r, n);
    assert OwnCaps(db, n);
    var a := db.cands[r.cand];
    var own := OwnKeys(db.allocs, db.cands, n);
    if n == r.sub {
      OwnOfBuyer(db, n, a.buyer);
      AddShare(db, r, own, BuyerKeys(db.allocs, a.buyer));
    } else {
      AddShare(db, r, own, own);
    }
    AddOwnBatches(db, r, n);
  }

  lemma BatchRoom(db: Db, r: PlanRequest)
    requires Tables(db) && Admitted(db, r)
    ensures r.sub in db.subs && r.config == db.subs[r.sub].config
    ensures r.config.maxBatchTotal.Some? ==>
      Total(db.allocs, BatchKeys(db.allocs, db.cands[r.cand].batch)) + r.reserved.minor <= r.config.maxBatchTotal.value.minor
  {}

  lemma AddOwnBatch(db: Db, r: PlanRequest, n: SubId, b: BatchId, t: nat)
    requires Tables(db) && Admitted(db, r) && n in db.subs && db.subs[n].config.maxBatchTotal.Some?
    requires t == db.subs[n].config.maxBatchTotal.value.minor && Total(db.allocs, OwnBatchKeys(db.allocs, db.cands, n, b)) <= t
    ensures var e := WithCycle(db, r); Total(e.allocs, OwnBatchKeys(e.allocs, e.cands, n, b)) <= t
  {
    hide Tables, CandidateInv;
    var own := OwnBatchKeys(db.allocs, db.cands, n, b);
    NewAllocation(db, r);
    AddOwnBatchKeys(db, r, n, b);
    if n == r.sub && b == db.cands[r.cand].batch {
      BatchRoom(db, r);
      assert own <= BatchKeys(db.allocs, b);
      AddShare(db, r, own, BatchKeys(db.allocs, b));
    } else {
      AddShare(db, r, own, own);
    }
  }

  lemma NewAllocation(db: Db, r: PlanRequest)
    requires Tables(db) && Admitted(db, r)
    ensures NewKey(db, r) !in db.allocs
  {
    AddFrame(db, r);
  }

  lemma AddOwnBatches(db: Db, r: PlanRequest, n: SubId)
    requires Tables(db) && Admitted(db, r) && n in db.subs && OwnCaps(db, n)
    ensures var e := WithCycle(db, r); var g := db.subs[n].config;
      forall b :: g.maxBatchTotal.Some? ==> Total(e.allocs, OwnBatchKeys(e.allocs, e.cands, n, b)) <= g.maxBatchTotal.value.minor
  {
    var e, g := WithCycle(db, r), db.subs[n].config;
    if g.maxBatchTotal.Some? {
      forall b ensures Total(e.allocs, OwnBatchKeys(e.allocs, e.cands, n, b)) <= g.maxBatchTotal.value.minor {
        AddOwnBatch(db, r, n, b, g.maxBatchTotal.value.minor);
      }
    }
  }

  lemma AddCaps(db: Db, r: PlanRequest)
    requires Tables(db) && AllRows(db) && Caps(db) && Admitted(db, r)
    ensures Caps(WithCycle(db, r))
  {
    var e := WithCycle(db, r);
    forall n | n in e.subs ensures OwnCaps(e, n) { AddOwn(db, r, n); }
    forall b, m: nat | CountCap(e, b, m) ensures |BuyerKeys(e.allocs, b)| <= m { AddBuyer(db, r, b); }
    forall b, t: nat | TotalCap(e, b, t) ensures Total(e.allocs, BuyerKeys(e.allocs, b)) <= t { AddBuyer(db, r, b); }
    forall b, t: nat | BatchTotalCap(e, b, t) ensures Total(e.allocs, BatchKeys(e.allocs, b)) <= t { AddBatch(db, r, b); }
    forall b, m: nat | SessionCap(e, b, m) ensures |BatchSessions(e.allocs, e.cands, b)| <= m { AddBatch(db, r, b); }
  }

  lemma AddKeeps(db: Db, r: PlanRequest)
    requires Inv(db) && Admitted(db, r)
    ensures Inv(WithCycle(db, r))
  {
    AddTables(db, r);
    AddRows(db, r);
    AddTiming(db, r);
    AddSeats(db, r);
    AddCaps(db, r);
    SameMail(db, WithCycle(db, r));
  }

  lemma PlanKeeps(db: Db, r: PlanRequest)
    requires Inv(db) && PlanReady(db, r)
    ensures Inv(Plan(db, r).0)
  {
    if Plan(db, r).1.Planned? {
      AddKeeps(db, r);
    } else if Claimable(db, r) {
      var a := db.cands[r.cand];
      RunnableIsAtRest(db, r.cand);
      PutKeeps(db, r.cand, Touched(a, r, WaitingAvailability));
      PutKeeps(db, r.cand, Touched(a, r, SkippedLimit));
      PutKeeps(db, r.cand, Touched(a, r, WaitingBudget));
    }
  }
}
