/** However a repeated write is lost in doubt, it is made again without a new authorisation. */
module LostAgain {
  import opened Wrappers
  import opened Rows
  import opened Planning
  import opened Scheduling
  import opened Checkout
  import opened Environment
  import opened Mailbox
  import opened Engine
  import opened Invariants
  import opened EngineInv
  import opened Guarantees
  import opened Writes
  import opened Repairs

  /** The checkout is open to another write, and the next pass may take it up. */
  ghost predicate OpenAgain(s: Sys, k: Key) {
    s.live && Reachable(s) && Retryable(s.db, k) && Resumable(s.db, k, s.clock)
  }

  /** The second state follows the first one without a word in the log. */
  ghost predicate Quietly(s: Sys, u: Sys) { exists events: seq<Event> :: u == Run(s, events) && u.log == s.log }

  lemma QuietStart(s: Sys)
    ensures Quietly(s, s)
  {
    hide Step;
    assert s == Run(s, []);
  }

  lemma QuietMore(s: Sys, u: Sys, more: seq<Event>)
    requires Quietly(s, u) && Run(u, more).log == u.log
    ensures Quietly(s, Run(u, more))
  {
    hide Step, Run;
    var events: seq<Event> :| u == Run(s, events) && u.log == s.log;
    RunAppend(s, events, more);
  }

  lemma QuietStep(s: Sys, u: Sys, e: Event)
    requires Quietly(s, u) && Step(u, e).log == u.log
    ensures Quietly(s, Step(u, e))
  {
    hide Step, Quietly;
    RunOne(u, e);
    QuietMore(s, u, [e]);
  }

  // ----- startup

  lemma {:induction false} ListOf(all: set<Key>) returns (keys: seq<Key>)
    ensures Lists(keys, all)
    decreases all
  {
    keys := [];
    if all != {} {
      var k :| k in all;
      var rest := ListOf(all - {k});
      keys := [k] + rest;
      assert keys[0] == k;
      forall j | j in all ensures j in keys { if j != k { assert j in rest; } }
    }
  }

  /** The checkout is current and not confirmed, so a repair does not touch it. */
  lemma RepairElsewhere(db: Db, k: Key, now: Time)
    requires Tables(db) && AllRows(db) && Retryable(db, k) && Resumable(db, k, now) && Repairable(db, UnscheduledKeys(db))
    ensures Retryable(Repaired(db, UnscheduledKeys(db)), k) && Resumable(Repaired(db, UnscheduledKeys(db)), k, now)
  {
    hide Tables, AllRows, Repairable;
    assert k !in UnscheduledKeys(db);
  }

  lemma Repairing(s: Sys, k: Key) returns (u: Sys)
    requires OpenAgain(s, k) && s.flight.Down?
    ensures OpenAgain(u, k) && Quietly(s, u) && u.flight == Rescheduling([])
  {
    hide Step, Run, Quietly, Resumable;
    ReachableHolds(s);
    var keys := ListOf(UnscheduledKeys(s.db));
    var events := [Boot(keys)] + Proceeds(|keys|);
    StartupRepairs(s, keys);
    u := Run(s, events);
    StillReachable(s, events);
    RepairElsewhere(s.db, k, s.clock);
    QuietStart(s);
    QuietMore(s, s, events);
  }

  lemma RowsOf(db: Db) returns (rows: seq<Engine.Incomplete>)
    ensures ListsIncomplete(db, rows)
  {
    var keys := ListOf(set k | k in db.intents && Unfinished(db.intents[k].state));
    rows := seq(|keys|, i requires 0 <= i < |keys| && keys[i] in db.intents =>
      Engine.Incomplete(keys[i], db.intents[keys[i]].writeStartedAt.Some?));
    forall k | k in db.intents && Unfinished(db.intents[k].state) ensures exists i :: 0 <= i < |rows| && rows[i].key == k {
      assert k in keys;
      var i :| 0 <= i < |keys| && keys[i] == k;
      assert rows[i].key == k;
    }
  }

  lemma Listed(s: Sys, k: Key) returns (u: Sys)
    requires OpenAgain(s, k) && s.flight == Rescheduling([])
    ensures OpenAgain(u, k) && Quietly(s, u) && u.flight.Reconciling?
  {
    hide Advance, Evaluate, Reconcile, ClaimRun, Act, Deliver, JudgeAnswer, Run, Resumable, Quietly;
    var rows := RowsOf(s.db);
    u := Step(s, ListIncomplete(rows));
    RunOne(s, ListIncomplete(rows));
    StillReachable(s, [ListIncomplete(rows)]);
    QuietStart(s);
    QuietStep(s, s, ListIncomplete(rows));
  }

  /** A row in doubt belongs to another candidate. */
  lemma RowElsewhere(db: Db, r: Engine.Incomplete, k: Key, now: Time)
    requires Tables(db) && AllRows(db) && RowReady(db, r) && Retryable(db, k) && Resumable(db, k, now)
    ensures r.key.cand != k.cand
  {
    hide Tables, Progressing, Amounts;
    assert RowsAt(db, r.key);
  }

  lemma ResolvedElsewhere(db: Db, paymentHost: string, r: Engine.Incomplete, k: Key, now: Time)
    requires r.key in db.intents && r.key.cand in db.cands && r.key.cand != k.cand && Retryable(db, k) && Resumable(db, k, now)
    ensures var e := ApplyRecovery(db, r.key, Decide(db, paymentHost, r.key, r.started, UnsupportedThere));
      Retryable(e, k) && Resumable(e, k, now)
  {}

  lemma LooksOnce(s: Sys, rows: seq<Engine.Incomplete>, k: Key)
    requires OpenAgain(s, k) && s.flight == Reconciling(rows) && rows != []
    ensures var u := Step(s, Looked(UnsupportedThere)); OpenAgain(u, k) && u.log == s.log && u.flight == Reconciling(rows[1..])
  {
    hide Advance, Evaluate, ClaimRun, Act, Deliver, JudgeAnswer, Run, Resumable, Resolved, Inv;
    ReachableRecovery(s);
    ReachableHolds(s);
    LookElsewhere(s, rows, k);
    RunOne(s, Looked(UnsupportedThere));
    StillReachable(s, [Looked(UnsupportedThere)]);
  }

  lemma LookElsewhere(s: Sys, rows: seq<Engine.Incomplete>, k: Key)
    requires Inv(s.db) && rows != [] && RowReady(s.db, rows[0]) && Retryable(s.db, k) && Resumable(s.db, k, s.clock)
    ensures var u := Reconcile(s, rows, UnsupportedThere);
      && Retryable(u.db, k) && Resumable(u.db, k, s.clock)
      && u == s.(db := u.db, flight := Reconciling(rows[1..]))
  {
    hide Resumable, ApplyRecovery, Retryable, RowsAt;
    RowElsewhere(s.db, rows[0], k, s.clock);
    ResolvedElsewhere(s.db, s.paymentHost, rows[0], k, s.clock);
  }

  lemma {:induction false} Reconciled(s: Sys, rows: seq<Engine.Incomplete>, k: Key) returns (u: Sys)
    requires OpenAgain(s, k) && s.flight == Reconciling(rows)
    ensures OpenAgain(u, k) && Quietly(s, u) && u.flight == Reconciling([])
    decreases |rows|
  {
    hide Step, Run, OpenAgain, Quietly;
    if rows == [] {
      u := s;
      QuietStart(s);
    } else {
      LooksOnce(s, rows, k);
      var v := Step(s, Looked(UnsupportedThere));
      u := Reconciled(v, rows[1..], k);
      QuietStart(s);
      QuietStep(s, s, Looked(UnsupportedThere));
      QuietTwice(s, v, u);
    }
  }

  lemma QuietTwice(s: Sys, u: Sys, v: Sys)
    requires Quietly(s, u) && Quietly(u, v)
    ensures Quietly(s, v)
  {
    hide Step, Run;
    var more: seq<Event> :| v == Run(u, more) && v.log == u.log;
    QuietMore(s, u, more);
  }

  lemma ClaimsElsewhere(db: Db, k: Key, now: Time)
    requires Retryable(db, k) && Resumable(db, k, now)
    ensures Retryable(RecoverClaims(db), k) && Resumable(RecoverClaims(db), k, now)
  {}

  lemma Started(s: Sys, k: Key) returns (u: Sys)
    requires OpenAgain(s, k) && s.flight == Reconciling([])
    ensures OpenAgain(u, k) && Quietly(s, u) && u.flight.Idle?
  {
    hide Work, Evaluate, Reconcile, Dispatch, Reschedule, Finalize, ClaimRun, Act, Deliver, JudgeAnswer, Run, Resumable, Quietly;
    u := Step(s, Proceed(0));
    ClaimsElsewhere(s.db, k, s.clock);
    RunOne(s, Proceed(0));
    StillReachable(s, [Proceed(0)]);
    QuietStart(s);
    QuietStep(s, s, Proceed(0));
  }

  /** Startup does not care about the checkout, and leads to an idle worker. */
  lemma Restarted(s: Sys, k: Key) returns (u: Sys)
    requires OpenAgain(s, k) && s.flight.Down?
    ensures OpenAgain(u, k) && Quietly(s, u) && u.flight.Idle?
  {
    hide *;
    var s1 := Repairing(s, k);
    var s2 := Listed(s1, k);
    var s3 := Reconciled(s2, s2.flight.rows, k);
    u := Started(s3, k);
    QuietTwice(s, s1, s2);
    QuietTwice(s, s2, s3);
    QuietTwice(s, s3, u);
  }

  // ----- the next pass

  lemma TakenUp(s: Sys, k: Key)
    requires OpenAgain(s, k) && s.flight.Idle?
    ensures var u := Step(Step(s, StartRun([k])), Proceed(0));
      u.live && u.flight.Working? && u.flight.job.key == k && u.flight.job.phase.BeforeWrite? && u.log == s.log
  {
    hide Work, Evaluate, Reconcile, Dispatch, Reschedule, Finalize, ClaimRun, Act, Deliver, JudgeAnswer, Run, Reachable;
    RequestIsConstructible(s, k);
    RetryableStarted(s, k);
    ReachableTables(s);
    assert k in s.db.cycles && HasTask(s.db, k);
    assert Step(s, StartRun([k])) == s.(flight := Resuming([k], s.clock), mark := s.clock);
  }

  lemma RetryableStarted(s: Sys, k: Key)
    requires Reachable(s) && Retryable(s.db, k)
    ensures s.db.intents[k].writeStartedAt.Some?
  {
    hide Step, Run;
    ReachableRow(s, k);
  }

  lemma WrittenFromIdle(s: Sys, k: Key) returns (events: seq<Event>)
    requires OpenAgain(s, k) && s.flight.Idle?
    ensures Run(s, events).log == s.log + [Opened(k), Wrote(k)]
  {
    hide Step, Run, OpenAgain;
    events := [StartRun([k])] + [Proceed(0)] + [Proceed(0)] + [Proceed(0)];
    TakenUp(s, k);
    ReloadedIsWritten(Step(Step(s, StartRun([k])), Proceed(0)), 0);
    RunOne(s, StartRun([k]));
    RunFour(s, StartRun([k]), Proceed(0), Proceed(0), Proceed(0));
  }

  lemma RunFour(s: Sys, a: Event, b: Event, c: Event, d: Event)
    ensures Run(s, [a] + [b] + [c] + [d]) == Step(Step(Step(Step(s, a), b), c), d)
  {
    hide Step, Run;
    RunOne(s, a);
    RunAppend(s, [a], [b]);
    RunOne(Step(s, a), b);
    RunAppend(s, [a] + [b], [c]);
    RunOne(Step(Step(s, a), b), c);
    RunAppend(s, [a] + [b] + [c], [d]);
    RunOne(Step(Step(Step(s, a), b), c), d);
  }

  // ----- the loss

  /** The worker is idle again, or down. */
  lemma AfterLoss(s: Sys, e: Event) returns (u: Sys)
    requires Reachable(s) && s.live && Disturbs(s, e) && Resumable(s.db, s.flight.job.key, s.clock)
    ensures OpenAgain(u, s.flight.job.key) && Quietly(Step(s, e), u) && u.log == s.log && (u.flight.Idle? || u.flight.Down?)
  {
    hide Advance, Evaluate, Reconcile, ClaimRun, Act, Deliver, JudgeAnswer, Run, Resumable, Quietly, Reachable;
    var v := Step(s, e);
    RunOne(s, e);
    StillReachable(s, [e]);
    QuietStart(v);
    u := v;
    if e.ProcessorRaises? {
      u := Step(v, Interrupt);
      RunOne(v, Interrupt);
      StillReachable(v, [Interrupt]);
      QuietStep(v, v, Interrupt);
    }
  }

  /**
   A repeated write leaves its checkout as open to another one as before. Whether the thread loses it in doubt to a
   crash or to an exception, the provider may be called again without any new authorisation.
   */
  lemma LostIsWrittenAgain(s: Sys, e: Event)
    requires Reachable(s) && s.live && Disturbs(s, e) && Resumable(s.db, s.flight.job.key, s.clock)
    ensures exists more :: WritesAgain(s, s.flight.job.key, Run(Step(s, e), more))
  {
    hide *;
    var more := WrittenAgain(s, e);
  }

  /** The provider is called once more, and no retry is authorised. */
  ghost predicate WritesAgain(s: Sys, k: Key, u: Sys) {
    && u.log == s.log + [Opened(k), Wrote(k)]
    && Times(u.log, Wrote(k)) == Times(s.log, Wrote(k)) + 1 && Times(u.log, Authorised(k)) == Times(s.log, Authorised(k))
  }

  lemma WrittenAgain(s: Sys, e: Event) returns (more: seq<Event>)
    requires Reachable(s) && s.live && Disturbs(s, e) && Resumable(s.db, s.flight.job.key, s.clock)
    ensures WritesAgain(s, s.flight.job.key, Run(Step(s, e), more))
  {
    hide Step, Run, OpenAgain, Resumable, Reachable;
    var k, v := s.flight.job.key, Step(s, e);
    var u := AfterLoss(s, e);
    if u.flight.Down? {
      var w := Restarted(u, k);
      QuietTwice(v, u, w);
      u := w;
    }
    var last := WrittenFromIdle(u, k);
    var first: seq<Event> :| u == Run(v, first) && u.log == v.log;
    more := first + last;
    RunAppend(v, first, last);
    TimesTwice(s.log, k);
  }
}
