/** A crash between recording an order and scheduling its renewal leaves no trace once startup has repaired it. */
module Repairs {
  import opened Wrappers
  import opened Rows
  import opened Planning
  import opened Scheduling
  import opened Checkout
  import opened Engine
  import opened Invariants
  import opened Preservation
  import opened EngineInv
  import opened EngineProof
  import opened EngineSteps
  import opened EngineWork
  import opened Guarantees

  /** The keys name confirmed cycles without a due time, each the current cycle of its candidate. */
  ghost predicate Repairable(db: Db, ks: set<Key>) {
    forall k :: k in ks ==> RepairableAt(db, k)
  }

  ghost predicate RepairableAt(db: Db, k: Key) {
    RepairReady(db, k) && RowsAt(db, k) && k.no == db.cands[k.cand].cycleNo
  }

  function RepairedGraph(db: Db, k: Key): Graph
    requires GraphExists(db, k) && HasTask(db, k) && k in db.orders
  {
    Held(Read(db, k), TaskOf(db, k), k.no, db.orders[k].heldAt)
  }

  /** Every listed cycle is scheduled from the hold of its order. */
  ghost function Repaired(db: Db, ks: set<Key>): Db
    requires Repairable(db, ks)
  {
    db.(cycles := map k | k in db.cycles :: if k in ks then RepairedGraph(db, k).cycle else db.cycles[k],
        cands := map c | c in db.cands ::
          var k := Key(c, db.cands[c].cycleNo);
          if k in ks then RepairedGraph(db, k).cand else db.cands[c])
  }

  lemma RepairOne(db: Db, k: Key)
    requires Repairable(db, {k})
    ensures Write(db, k, RepairedGraph(db, k)) == Repaired(db, {k})
  {}

  lemma OthersRepairable(db: Db, k: Key, ks: set<Key>)
    requires Repairable(db, ks + {k}) && k !in ks
    ensures Repairable(db, {k}) && Repairable(Repaired(db, {k}), ks)
    ensures forall j :: j in ks ==> RepairedGraph(Repaired(db, {k}), j) == RepairedGraph(db, j)
  {}

  /** Repairs of different candidates commute with repairing them all at once. */
  lemma RepairMore(db: Db, k: Key, ks: set<Key>)
    requires Repairable(db, ks + {k}) && k !in ks
    ensures Repairable(db, {k}) && Repairable(Repaired(db, {k}), ks)
    ensures Repaired(Repaired(db, {k}), ks) == Repaired(db, ks + {k})
  {
    hide RowsAt, RowInv;
    OthersRepairable(db, k, ks);
    var e := Repaired(db, {k});
    var f, all := Repaired(e, ks), Repaired(db, ks + {k});
    assert f.cycles == all.cycles;
    forall c | c in db.cands ensures f.cands[c] == all.cands[c] {
      assert e.cands[c].cycleNo == db.cands[c].cycleNo;
    }
    assert f.cands == all.cands;
  }

  function KeySet(keys: seq<Key>): set<Key> { set i | 0 <= i < |keys| :: keys[i] }

  function Proceeds(n: nat): seq<Event> { seq(n, _ => Proceed(0)) }

  /** One repair of the startup loop. */
  lemma RepairStep(s: Sys, keys: seq<Key>)
    requires s.flight == Rescheduling(keys) && keys != [] && Repairable(s.db, {keys[0]})
    ensures Step(s, Proceed(0)) == s.(db := Repaired(s.db, {keys[0]}), flight := Rescheduling(keys[1..]))
  {
    hide Work, Reconcile, Dispatch, Finalize, Reschedule, Evaluate, ClaimRun, JudgeAnswer;
    var k := keys[0];
    assert RepairableAt(s.db, k);
    RescheduleShape(s, k, s.db.orders[k].heldAt, Rescheduling(keys[1..]));
    RepairOne(s.db, k);
  }

  lemma HeadAndTail(keys: seq<Key>)
    requires keys != [] && Distinct(keys)
    ensures KeySet(keys) == KeySet(keys[1..]) + {keys[0]} && keys[0] !in KeySet(keys[1..]) && Distinct(keys[1..])
  {}

  lemma RepairUnroll(s: Sys, keys: seq<Key>)
    requires s.flight == Rescheduling(keys) && keys != [] && Repairable(s.db, {keys[0]})
    ensures Run(s, Proceeds(|keys|))
         == Run(s.(db := Repaired(s.db, {keys[0]}), flight := Rescheduling(keys[1..])), Proceeds(|keys[1..]|))
  {
    hide Step, Run;
    RepairStep(s, keys);
    assert Proceeds(|keys|) == [Proceed(0)] + Proceeds(|keys[1..]|);
    RunAppend(s, [Proceed(0)], Proceeds(|keys[1..]|));
    RunOne(s, Proceed(0));
  }

  /** The startup loop never meets a cycle that is not current, and its order of repairs does not matter. */
  lemma {:induction false} RepairLoop(s: Sys, keys: seq<Key>)
    requires s.flight == Rescheduling(keys) && Distinct(keys) && Repairable(s.db, KeySet(keys))
    ensures Run(s, Proceeds(|keys|)) == s.(db := Repaired(s.db, KeySet(keys)), flight := Rescheduling([]))
    decreases |keys|
  {
    hide Step;
    if keys == [] {
      NothingRepaired(s.db);
    } else {
      var k, rest := keys[0], keys[1..];
      HeadAndTail(keys);
      RepairMore(s.db, k, KeySet(rest));
      RepairUnroll(s, keys);
      RepairLoop(s.(db := Repaired(s.db, {k}), flight := Rescheduling(rest)), rest);
    }
  }

  lemma RunOne(s: Sys, e: Event)
    ensures Run(s, [e]) == Step(s, e)
  {
    hide Step;
  }

  lemma NothingRepaired(db: Db)
    ensures Repairable(db, {}) && Repaired(db, {}) == db && KeySet([]) == {}
  {}

  lemma UnscheduledIsRepairable(db: Db)
    requires Tables(db) && AllRows(db)
    ensures Repairable(db, UnscheduledKeys(db))
  {}

  /** A second repair finds nothing to do. */
  lemma RepairIsIdempotent(db: Db)
    requires Tables(db) && AllRows(db)
    ensures Repairable(db, UnscheduledKeys(db)) && UnscheduledKeys(Repaired(db, UnscheduledKeys(db))) == {}
  {
    hide Repaired, Repairable, Tables, AllRows;
    UnscheduledIsRepairable(db);
    forall k | k in db.intents ensures !Unscheduled(Repaired(db, UnscheduledKeys(db)), k) { RepairedIsScheduled(db, k); }
    RepairKeepsKeys(db, UnscheduledKeys(db));
  }

  lemma RepairKeepsKeys(db: Db, ks: set<Key>)
    requires Repairable(db, ks)
    ensures Repaired(db, ks).intents == db.intents
  {}

  lemma RepairedIsScheduled(db: Db, k: Key)
    requires k in db.intents && Repairable(db, UnscheduledKeys(db))
    ensures !Unscheduled(Repaired(db, UnscheduledKeys(db)), k)
  {
    assert k in UnscheduledKeys(db) <==> Unscheduled(db, k);
  }

  /** Startup repair from any state of a stopped worker, whatever the order of its query. */
  lemma StartupRepairs(s: Sys, keys: seq<Key>)
    requires Tables(s.db) && AllRows(s.db) && s.flight.Down? && Lists(keys, UnscheduledKeys(s.db))
    ensures Repairable(s.db, UnscheduledKeys(s.db))
    ensures Run(s, [Boot(keys)] + Proceeds(|keys|))
         == s.(db := Repaired(s.db, UnscheduledKeys(s.db)), flight := Rescheduling([]))
  {
    hide Tables, CandidateInv;
    UnscheduledIsRepairable(s.db);
    RunAppend(s, [Boot(keys)], Proceeds(|keys|));
    RunOne(s, Boot(keys));
    assert KeySet(keys) == UnscheduledKeys(s.db) by {
      forall k | k in UnscheduledKeys(s.db) ensures k in KeySet(keys) { assert k in keys; }
    }
    RepairLoop(s.(flight := Rescheduling(keys)), keys);
  }

  // ----- a crash before scheduling

  lemma HoldIsUnscheduled(db: Db, t: Task, no: nat, heldAt: Time)
    requires RowsAt(db, Key(t.cand, no)) && Schedulable(db, t, no, heldAt) && Key(t.cand, no) in db.intents
    ensures var k := Key(t.cand, no);
      k in UnscheduledKeys(db) && RepairableAt(db, k) && ScheduleAfterHold(db, t, no, heldAt) == (Repaired(db, {k}), Scheduled)
  {
    var k := Key(t.cand, no);
    assert OrderAt(db, k).Some?;
    ScheduleReplace(db, t, no, heldAt);
    RepairOne(db, k);
  }

  lemma LeftUnscheduled(db: Db, k: Key)
    requires RepairableAt(db, k)
    ensures UnscheduledKeys(Repaired(db, {k})) == UnscheduledKeys(db) - {k}
  {}

  /**
   A crash after an order was recorded and before its renewal was scheduled: the repaired tables are those of the
   run that did not crash, once both have scheduled whatever else was left open; they are equal outright when
   nothing else was.
   */
  lemma CrashBeforeScheduling(s: Sys, t: Task, origin: Origin, no: nat, heldAt: Time, keys: seq<Key>, m: MsgId)
    requires Reachable(s) && s.flight == Dispatching(t, origin, Hold(no, heldAt)) && Lists(keys, UnscheduledKeys(s.db))
    ensures var k := Key(t.cand, no);
      var free := Step(s, Proceed(m)).db;
      var back := Run(s, [Crash, Boot(keys)] + Proceeds(|keys|)).db;
      && k in UnscheduledKeys(s.db) && UnscheduledKeys(free) == UnscheduledKeys(s.db) - {k}
      && Repairable(free, UnscheduledKeys(free)) && back == Repaired(free, UnscheduledKeys(free))
      && (UnscheduledKeys(s.db) == {k} ==> back == free)
  {
    hide *;
    CrashFree(s, t, origin, no, heldAt, m);
    ReachableTables(s);
    CrashedRun(s, keys);
    RepairTheRest(s.db, Key(t.cand, no));
  }

  lemma CrashFree(s: Sys, t: Task, origin: Origin, no: nat, heldAt: Time, m: MsgId)
    requires Reachable(s) && s.flight == Dispatching(t, origin, Hold(no, heldAt))
    ensures var k := Key(t.cand, no);
      k in UnscheduledKeys(s.db) && RepairableAt(s.db, k) && Step(s, Proceed(m)).db == Repaired(s.db, {k})
  {
    hide Tables, CandidateInv;
    ReachableHold(s, t, origin, no, heldAt);
    ReachableTables(s);
    assert RowsAt(s.db, Key(t.cand, no));
    HoldIsUnscheduled(s.db, t, no, heldAt);
  }

  /** Repairing one cycle first and the rest later is repairing all of them. */
  lemma RepairTheRest(db: Db, k: Key)
    requires Tables(db) && AllRows(db) && k in UnscheduledKeys(db) && RepairableAt(db, k)
    ensures var free := Repaired(db, {k}); var rest := UnscheduledKeys(free);
      && rest == UnscheduledKeys(db) - {k} && Repairable(free, rest)
      && Repairable(db, UnscheduledKeys(db)) && Repaired(free, rest) == Repaired(db, UnscheduledKeys(db))
      && (UnscheduledKeys(db) == {k} ==> Repaired(db, UnscheduledKeys(db)) == free)
  {
    hide *;
    LeftUnscheduled(db, k);
    UnscheduledIsRepairable(db);
    var rest := UnscheduledKeys(db) - {k};
    assert rest + {k} == UnscheduledKeys(db);
    RepairMore(db, k, rest);
  }

  lemma ReachableHold(s: Sys, t: Task, origin: Origin, no: nat, heldAt: Time)
    requires Reachable(s) && s.flight == Dispatching(t, origin, Hold(no, heldAt))
    ensures Schedulable(s.db, t, no, heldAt)
  {
    hide Step, Run;
    ReachableHolds(s);
  }

  lemma CrashedRun(s: Sys, keys: seq<Key>)
    requires Tables(s.db) && AllRows(s.db) && Lists(keys, UnscheduledKeys(s.db))
    ensures Repairable(s.db, UnscheduledKeys(s.db))
    ensures Run(s, [Crash, Boot(keys)] + Proceeds(|keys|)).db == Repaired(s.db, UnscheduledKeys(s.db))
  {
    hide Advance, Evaluate, Reconcile, ClaimRun, JudgeAnswer;
    var after := [Boot(keys)] + Proceeds(|keys|);
    assert [Crash, Boot(keys)] + Proceeds(|keys|) == [Crash] + after;
    RunAppend(s, [Crash], after);
    RunOne(s, Crash);
    StartupRepairs(Go(s, Down), keys);
  }

  /** Recording an order, and any repair after it, leave a stopped candidate as it is. */
  lemma StoppedStaysStopped(db: Db, k: Key, o: Order, now: Time, newMsg: MsgId)
    requires k.cand in db.cands && db.cands[k.cand].state.Stopped?
    ensures var e := RecordOrder(db, k, o, now, newMsg).0;
      && k.cand in e.cands && e.cands[k.cand] == db.cands[k.cand]
      && (forall ks :: Repairable(e, ks) ==> k.cand in Repaired(e, ks).cands && Repaired(e, ks).cands[k.cand] == db.cands[k.cand])
  {
    hide RecordOrder, Repairable, Repaired;
    RecordKeepsStopped(db, k, o, now, newMsg);
    var e := RecordOrder(db, k, o, now, newMsg).0;
    forall ks | Repairable(e, ks)
      ensures k.cand in Repaired(e, ks).cands && Repaired(e, ks).cands[k.cand] == db.cands[k.cand]
    {
      RepairKeepsStopped(e, ks, k.cand);
    }
  }

  lemma RecordKeepsStopped(db: Db, k: Key, o: Order, now: Time, newMsg: MsgId)
    requires k.cand in db.cands && db.cands[k.cand].state.Stopped?
    ensures var e := RecordOrder(db, k, o, now, newMsg).0; k.cand in e.cands && e.cands[k.cand] == db.cands[k.cand]
  {}

  lemma RepairKeepsStopped(db: Db, ks: set<Key>, c: CandId)
    requires c in db.cands && db.cands[c].state.Stopped? && Repairable(db, ks)
    ensures c in Repaired(db, ks).cands && Repaired(db, ks).cands[c] == db.cands[c]
  {
    var j := Key(c, db.cands[c].cycleNo);
    if j in ks { assert RepairableAt(db, j); }
  }
}
