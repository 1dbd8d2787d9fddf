/** Single runs from an empty database, followed step by step. */
module Walks {
  import opened Wrappers
  import opened Rows
  import opened Scheduling
  import opened Engine
  import opened Guarantees

  const HOST := "pay"

  function At(db: Db, f: Flight, log: seq<LogEntry>, now: Time): Sys { Sys(true, HOST, db, f, log, now, now) }

  lemma RunMore(s: Sys, events: seq<Event>, e: Event)
    ensures Run(s, events + [e]) == Step(Run(s, events), e)
  {
    hide Step;
    assert (events + [e])[..|events|] == events;
  }

  /** A state some run reaches with a live worker. */
  ghost predicate Reached(s: Sys) { exists events :: s == Run(Start(true, HOST), events) }

  lemma Begin()
    ensures Reached(At(NoDb, Down, [], 0))
  {
    hide Step;
    assert Run(Start(true, HOST), []) == At(NoDb, Down, [], 0);
  }

  lemma Then(s: Sys, e: Event)
    requires Reached(s)
    ensures Reached(Step(s, e))
  {
    hide Step, Run;
    var events :| s == Run(Start(true, HOST), events);
    RunMore(Start(true, HOST), events, e);
  }

  lemma ReachedIsReachable(s: Sys)
    requires Reached(s)
    ensures Reachable(s)
  {
    hide Step, Run;
    var events :| s == Run(Start(true, HOST), events);
  }

  /** A database without checkouts, and without claims left over. */
  predicate Untried(db: Db) {
    db.intents == map[] && forall c :: c in db.cands ==> !db.cands[c].state.RenewalClaimed?
  }

  lemma Boots(db: Db)
    requires Untried(db) && Reached(At(db, Down, [], 0))
    ensures Reached(At(db, Rescheduling([]), [], 0))
  {
    hide Advance, Evaluate, Reconcile, ClaimRun, JudgeAnswer;
    assert UnscheduledKeys(db) == {};
    Then(At(db, Down, [], 0), Boot([]));
  }

  lemma FindsNothing(db: Db)
    requires Untried(db) && Reached(At(db, Rescheduling([]), [], 0))
    ensures Reached(At(db, Reconciling([]), [], 0))
  {
    hide Advance, Evaluate, Reconcile, ClaimRun, JudgeAnswer;
    Then(At(db, Rescheduling([]), [], 0), ListIncomplete([]));
  }

  /** Startup has nothing to recover, and the first pass nothing to resume. */
  lemma Idles(db: Db)
    requires Untried(db) && Reached(At(db, Down, [], 0))
    ensures Reached(At(db, Idle, [], 0))
  {
    hide Work, Reconcile, Dispatch, Finalize, Reschedule, Evaluate, ClaimRun, JudgeAnswer;
    Boots(db);
    FindsNothing(db);
    NothingClaimed(db);
    Then(At(db, Reconciling([]), [], 0), Proceed(0));
  }

  lemma NothingClaimed(db: Db)
    requires Untried(db)
    ensures RecoverClaims(db) == db
  {
    var cands := RecoverClaims(db).cands;
    forall c | c in db.cands ensures cands[c] == db.cands[c] {}
    assert cands == db.cands;
  }

  lemma StartsClaiming(db: Db)
    requires Untried(db) && Reached(At(db, Down, [], 0))
    ensures Reached(At(db, Claiming(0), [], 0))
  {
    hide Work, Reconcile, Dispatch, Finalize, Reschedule, Evaluate, ClaimRun, JudgeAnswer;
    Idles(db);
    var s0 := At(db, Idle, [], 0);
    Then(s0, StartRun([]));
    var s1 := At(db, Resuming([], 0), [], 0);
    assert Step(s0, StartRun([])) == s1;
    Then(s1, Proceed(0));
  }
}
