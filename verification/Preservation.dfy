/** Each transaction keeps the invariant of the tables. */
module Preservation {
  import opened Wrappers
  import opened Rows
  import opened Planning
  import opened Scheduling
  import opened Checkout
  import opened Invariants

  // ----- one checkout graph is rewritten

  /** The rewritten rows name the same candidate and cycle, and give up no more than they held. */
  ghost predicate Rewrites(c: Config, g: Graph, h: Graph) {
    && SameIdentity(g.cand, h.cand)
    && h.cycle.createdAt == g.cycle.createdAt
    && h.alloc.buyer == g.alloc.buyer && h.alloc.batch == g.alloc.batch && h.alloc.cand == g.alloc.cand
    && (h.alloc.active ==> g.alloc.active)
    && (h.alloc.reserved <= g.alloc.reserved || c.PriceUnlimited())
    && (g.order.Some? ==> h.order == g.order)
  }

  /** `k` is a candidate's current cycle, and `h` may replace its rows. */
  ghost predicate Replaceable(db: Db, k: Key, h: Graph) {
    && RowsAt(db, k) && k.no == db.cands[k.cand].cycleNo
    && Rewrites(Settings(db, k.cand), Read(db, k), h)
    && (h.cand.target == db.cands[k.cand].target || !HasOrder(db, k.cand))
  }

  lemma ReplaceQuiet(db: Db, k: Key, h: Graph)
    requires db.orders.Keys <= db.cycles.Keys && Replaceable(db, k, h) && CandidateInv(db, db.cands[k.cand])
    requires forall n :: n in db.cycles && n.cand == k.cand ==> n.no <= k.no
    ensures Quiet(db, Write(db, k, h))
  {}

  /** Another cycle of the same candidate is at rest, so the candidate's new state does not concern it. */
  lemma OtherRow(db: Db, k: Key, h: Graph, j: Key)
    requires Replaceable(db, k, h) && RowsAt(db, j) && j != k
    ensures RowsAt(Write(db, k, h), j)
  {}

  lemma ReplaceRows(db: Db, k: Key, h: Graph)
    requires AllRows(db) && Replaceable(db, k, h) && RowInv(k, Settings(db, k.cand), h)
    ensures AllRows(Write(db, k, h))
  {
    var e := Write(db, k, h);
    forall j | j in e.cycles ensures RowsAt(e, j) {
      if j != k {
        assert RowsAt(db, j);
        OtherRow(db, k, h, j);
      } else {
        assert Read(e, k) == h.(order := OrderAt(e, k));
      }
    }
  }

  lemma SameOrders(db: Db, k: Key, h: Graph)
    requires h.order == OrderAt(db, k)
    ensures Write(db, k, h).orders == db.orders
  {}

  lemma ReplaceKeeps(db: Db, k: Key, h: Graph)
    requires Inv(db) && Replaceable(db, k, h) && h.order == OrderAt(db, k) && RowInv(k, Settings(db, k.cand), h)
    ensures Inv(Write(db, k, h))
  {
    ReplaceRows(db, k, h);
    assert CandidateInv(db, db.cands[k.cand]);
    ReplaceQuiet(db, k, h);
    SameOrders(db, k, h);
    QuietKeeps(db, Write(db, k, h));
  }

  /** The intent may record this stage: it is open for a first or repeated write, or its write has started. */
  predicate StageAllowed(i: Intent, stage: Stage) {
    match stage
    case WriteStarted => (i.state.Pending? || i.state.RetryAllowed?) && i.expected.minor > 0
    case Progress => !Settled(i.state)
    case _ => !Settled(i.state) && i.writeStartedAt.Some?
  }

  lemma StagedRow(k: Key, c: Config, g: Graph, stage: Stage, now: Time)
    requires RowInv(k, c, g) && StageAllowed(g.intent, stage)
    ensures RowInv(k, c, StagedGraph(g, stage, now)) && Rewrites(c, g, StagedGraph(g, stage, now))
  {}

  lemma ResolvedRow(k: Key, c: Config, g: Graph, d: Disposition)
    requires RowInv(k, c, g) && !Settled(g.intent.state) && (d.ConfirmFound? ==> g.intent.writeStartedAt.Some?)
    ensures RowInv(k, c, Resolved(g, d)) && Rewrites(c, g, Resolved(g, d))
  {}

  lemma DoubtfulRow(k: Key, c: Config, g: Graph)
    requires RowInv(k, c, g) && !Settled(g.intent.state)
    ensures RowInv(k, c, DoubtfulGraph(g)) && Rewrites(c, g, DoubtfulGraph(g))
  {}

  lemma RefusedRow(k: Key, c: Config, g: Graph, ordered: bool, now: Time, retry: int, stop: bool)
    requires RowInv(k, c, g) && g.order.None? && g.alloc.active && g.intent.writeStartedAt.Some?
    ensures RowInv(k, c, RefusedGraph(g, ordered, now, retry, stop))
    ensures Rewrites(c, g, RefusedGraph(g, ordered, now, retry, stop))
  {}

  lemma ConfirmedRow(k: Key, c: Config, g: Graph, o: Order)
    requires RowInv(k, c, g) && !Settled(g.intent.state) && g.intent.writeStartedAt.Some? && OrderFits(g.intent, o)
    ensures RowInv(k, c, ConfirmedGraph(g, o)) && Rewrites(c, g, ConfirmedGraph(g, o))
  {}

  // ----- candidates change state together

  /** No reservation of the candidate is outstanding, hence none of its intents is unfinished. */
  ghost predicate AtRest(db: Db, c: CandId) {
    forall k :: k in db.allocs && k.cand == c ==> !db.allocs[k].active
  }

  lemma RestIsSettled(db: Db, k: Key)
    requires RowsAt(db, k) && AtRest(db, k.cand)
    ensures Settled(db.intents[k].state) && db.cycles[k].releasedAt.Some?
  {}

  /** A candidate outside the holding states is at rest. */
  lemma RunnableIsAtRest(db: Db, c: CandId)
    requires AllRows(db) && db.allocs.Keys == db.cycles.Keys && c in db.cands && !MayHold(db.cands[c].state)
    ensures AtRest(db, c)
  {}

  /** Only candidates at rest change state, except that any candidate may be stopped. */
  ghost predicate Moves(db: Db, cands: map<CandId, Candidate>) {
    && cands.Keys == db.cands.Keys
    && (forall c :: c in cands ==>
          && SameIdentity(db.cands[c], cands[c]) && cands[c].target == db.cands[c].target
          && (cands[c] == db.cands[c] || cands[c].state.Stopped? || AtRest(db, c)))
  }

  lemma MovesRows(db: Db, cands: map<CandId, Candidate>)
    requires AllRows(db) && Moves(db, cands)
    ensures AllRows(db.(cands := cands))
  {}

  lemma MovesQuiet(db: Db, cands: map<CandId, Candidate>)
    requires db.orders.Keys <= db.cycles.Keys && Moves(db, cands)
    ensures Quiet(db, db.(cands := cands))
  {}

  lemma MovesKeep(db: Db, cands: map<CandId, Candidate>)
    requires Inv(db) && Moves(db, cands)
    ensures Inv(db.(cands := cands))
  {
    MovesRows(db, cands);
    MovesQuiet(db, cands);
    QuietKeeps(db, db.(cands := cands));
  }

  lemma PutKeeps(db: Db, c: CandId, a: Candidate)
    requires Inv(db) && c in db.cands && SameIdentity(db.cands[c], a) && a.target == db.cands[c].target
    requires a.state.Stopped? || AtRest(db, c)
    ensures Inv(Put(db, c, a))
  {
    MovesKeep(db, db.cands[c := a]);
  }

  // ----- the scheduler

  lemma WaitKeeps(db: Db, t: Task, budget: bool, now: Time)
    requires Inv(db)
    requires t.cand in db.cands && db.cands[t.cand].cycleNo == t.prev ==> AtRest(db, t.cand)
    ensures Inv(ScheduleWait(db, t, budget, now))
  {
    if t.cand in db.cands && db.cands[t.cand].cycleNo == t.prev {
      PutKeeps(db, t.cand, Waiting(db.cands[t.cand], t, budget, now));
    }
  }

  lemma ReleaseClaimKeeps(db: Db, t: Task)
    requires Inv(db)
    ensures Inv(ReleaseClaim(db, t))
  {
    if t.cand in db.cands && db.cands[t.cand].state == RenewalClaimed && db.cands[t.cand].cycleNo == t.prev {
      RunnableIsAtRest(db, t.cand);
      PutKeeps(db, t.cand, db.cands[t.cand].(state := Queued, nextRunAt := None));
    }
  }

  lemma RecoverClaimsKeeps(db: Db)
    requires Inv(db)
    ensures Inv(RecoverClaims(db))
  {
    var e := RecoverClaims(db);
    forall c | c in db.cands && db.cands[c].state == RenewalClaimed ensures AtRest(db, c) { RunnableIsAtRest(db, c); }
    MovesKeep(db, e.cands);
  }

  /** The candidate's current cycle is not confirmed and still unscheduled. */
  ghost predicate NoOpenHold(db: Db, c: CandId) {
    forall k :: k in db.cycles && k in db.orders && k.cand == c ==> db.cycles[k].dueAt.Some?
  }

  lemma MarkReplace(db: Db, k: Key)
    requires RowsAt(db, k) && k.no == db.cands[k.cand].cycleNo && NoOpenHold(db, k.cand)
    ensures var h := BlockedGraph(Read(db, k));
      Replaceable(db, k, h) && h.order == OrderAt(db, k) && RowInv(k, Settings(db, k.cand), h)
  {}

  lemma MarkKeeps(db: Db, t: Task)
    requires Inv(db) && NoOpenHold(db, t.cand)
    ensures Inv(MarkNeedsAttention(db, t))
  {
    if t.cand in db.cands {
      var a := db.cands[t.cand];
      var k := Key(t.cand, a.cycleNo);
      if GraphExists(db, k) && !a.state.RenewalClaimed? {
        assert RowsAt(db, k);
        MarkReplace(db, k);
        ReplaceKeeps(db, k, BlockedGraph(Read(db, k)));
      } else {
        if a.state.RenewalClaimed? { RunnableIsAtRest(db, t.cand); } else { FreshIsAtRest(db, t.cand); }
        PutKeeps(db, t.cand, Blocked(a));
      }
    }
  }

  lemma FreshIsAtRest(db: Db, c: CandId)
    requires Tables(db) && AllRows(db) && c in db.cands && !GraphExists(db, Key(c, db.cands[c].cycleNo))
    ensures AtRest(db, c)
  {}

  lemma ReleaseRow(db: Db, now: Time, j: Key)
    requires RowsAt(db, j)
    ensures RowsAt(ReleaseElapsed(db, now), j)
  {}

  lemma ReleaseQuiet(db: Db, now: Time)
    requires db.orders.Keys <= db.cycles.Keys
    ensures Quiet(db, ReleaseElapsed(db, now))
  {}

  lemma ReleaseRows(db: Db, now: Time)
    requires AllRows(db)
    ensures AllRows(ReleaseElapsed(db, now))
  {
    var e := ReleaseElapsed(db, now);
    forall j | j in e.cycles ensures RowsAt(e, j) { assert RowsAt(db, j); ReleaseRow(db, now, j); }
  }

  lemma ReleaseKeeps(db: Db, now: Time)
    requires Inv(db)
    ensures Inv(ReleaseElapsed(db, now))
  {
    ReleaseQuiet(db, now);
    ReleaseRows(db, now);
    QuietKeeps(db, ReleaseElapsed(db, now));
  }

  lemma DueIsAtRest(db: Db, now: Time, c: CandId)
    requires AllRows(db) && db.allocs.Keys == db.cycles.Keys && Due(db, c, now)
    ensures AtRest(ReleaseElapsed(db, now), c)
  {}

  lemma ClaimMoves(db: Db, now: Time, chosen: set<CandId>)
    requires forall c :: c in chosen ==> AtRest(db, c)
    ensures Moves(db, Claimed(db, now, chosen).cands)
  {}

  lemma ClaimKeeps(db: Db, now: Time, chosen: set<CandId>)
    requires Inv(db) && forall c :: c in chosen ==> Due(db, c, now)
    ensures Inv(Claim(db, now, chosen))
  {
    var r := ReleaseElapsed(db, now);
    ReleaseKeeps(db, now);
    forall c | c in chosen ensures AtRest(r, c) { DueIsAtRest(db, now, c); }
    ClaimMoves(r, now, chosen);
    MovesKeep(r, Claimed(r, now, chosen).cands);
  }

  /** The confirmed cycle `no` of the task's candidate has an order held at `heldAt` and no due time yet. */
  ghost predicate Schedulable(db: Db, t: Task, no: nat, heldAt: Time) {
    && no == t.prev + 1 && t.cand in db.cands && db.cands[t.cand].sub in db.subs
    && t == MakeTask(t.cand, db.cands[t.cand].sub, t.prev, Settings(db, t.cand))
    && var k := Key(t.cand, no);
       k in db.cycles && k in db.orders && db.cycles[k].dueAt.None? && db.orders[k].heldAt == heldAt
  }

  lemma ScheduleReplace(db: Db, t: Task, no: nat, heldAt: Time)
    requires RowsAt(db, Key(t.cand, no)) && Schedulable(db, t, no, heldAt)
    ensures var k := Key(t.cand, no); var h := Held(Read(db, k), t, no, heldAt);
      && Replaceable(db, k, h) && h.order == OrderAt(db, k) && RowInv(k, Settings(db, k.cand), h)
      && ScheduleAfterHold(db, t, no, heldAt) == (Write(db, k, h), Scheduled)
  {}

  lemma ScheduleKeeps(db: Db, t: Task, no: nat, heldAt: Time)
    requires Inv(db) && Schedulable(db, t, no, heldAt)
    ensures ScheduleAfterHold(db, t, no, heldAt).1 == Scheduled
    ensures Inv(ScheduleAfterHold(db, t, no, heldAt).0)
  {
    var k := Key(t.cand, no);
    assert RowsAt(db, k);
    ScheduleReplace(db, t, no, heldAt);
    ReplaceKeeps(db, k, Held(Read(db, k), t, no, heldAt));
  }

  // ----- checkout

  lemma InvRow(db: Db, k: Key)
    requires Inv(db) && k in db.intents
    ensures RowsAt(db, k)
  {}

  lemma StageKeeps(db: Db, k: Key, stage: Stage, now: Time)
    requires Inv(db) && k in db.intents && StageAllowed(db.intents[k], stage)
    ensures Inv(RecordStage(db, k, stage, now))
  {
    hide Inv, Rewrites, Staged;
    InvRow(db, k);
    StagedRow(k, Settings(db, k.cand), Read(db, k), stage, now);
    ReplaceKeeps(db, k, StagedGraph(Read(db, k), stage, now));
  }

  lemma ApplyKeeps(db: Db, k: Key, d: Disposition)
    requires Inv(db) && k in db.intents && !Settled(db.intents[k].state)
    requires d.ConfirmFound? ==> db.intents[k].writeStartedAt.Some?
    ensures Inv(ApplyRecovery(db, k, d))
  {
    hide Inv, Rewrites;
    InvRow(db, k);
    ResolvedRow(k, Settings(db, k.cand), Read(db, k), d);
    ReplaceKeeps(db, k, Resolved(Read(db, k), d));
  }

  lemma AttentionKeeps(db: Db, k: Key, err: ErrorCode)
    requires Inv(db) && k in db.intents && !Settled(db.intents[k].state)
    ensures Inv(IntentNeedsAttention(db, k, err))
  {
    hide Inv, Rewrites;
    InvRow(db, k);
    DoubtfulRow(k, Settings(db, k.cand), Read(db, k));
    ReplaceKeeps(db, k, DoubtfulGraph(Read(db, k)));
    if Broadcasts(err) { BlockSiblingsKeeps(Write(db, k, DoubtfulGraph(Read(db, k))), db.cands[k.cand]); }
  }

  lemma BlockSiblingsKeeps(db: Db, a: Candidate)
    requires Inv(db)
    ensures Inv(BlockSiblings(db, a))
  {
    forall c | c in db.cands && Sibling(a, db.cands[c]) ensures AtRest(db, c) { RunnableIsAtRest(db, c); }
    MovesKeep(db, BlockSiblings(db, a).cands);
  }

  /** The intent may be refused locally: a write was started and it still holds its reservation. */
  ghost predicate Refusable(db: Db, k: Key) {
    && k in db.intents && k in db.allocs && db.allocs[k].active
    && !db.intents[k].state.Confirmed? && db.intents[k].writeStartedAt.Some?
  }

  lemma RejectKeeps(db: Db, k: Key, now: Time, retry: int, stop: bool)
    requires Inv(db) && Refusable(db, k)
    ensures Inv(RejectIntent(db, k, now, retry, stop))
  {
    hide Caps, Timing, SeatsDiffer, Mail;
    assert RowsAt(db, k);
    var ordered := HasOrder(db, k.cand);
    RefusedRow(k, Settings(db, k.cand), Read(db, k), ordered, now, retry, stop);
    ReplaceKeeps(db, k, RefusedGraph(Read(db, k), ordered, now, retry, stop));
  }

  lemma RecordMail(db: Db, k: Key, o: Order, now: Time, newMsg: MsgId)
    requires Mail(db) && newMsg !in db.msgs
    ensures Mail(RecordOrder(db, k, o, now, newMsg).0)
  {
    var e := RecordOrder(db, k, o, now, newMsg).0;
    if e != db {
      forall j | j in e.orders ensures HasMail(e, j) {
        if j == k {
          assert IsPaymentOf(e.msgs[newMsg], k);
        } else {
          assert HasMail(db, j);
          var m :| m in db.msgs && IsPaymentOf(db.msgs[m], j);
          assert m in e.msgs && IsPaymentOf(e.msgs[m], j);
        }
      }
    }
  }

  /** An intent whose write started and which is either unfinished or already confirmed may be confirmed. */
  ghost predicate Confirmable(db: Db, k: Key) {
    && k in db.intents && db.intents[k].writeStartedAt.Some?
    && (Settled(db.intents[k].state) ==> k in db.orders)
  }

  /** The tables of a recorded order, before its message is added. */
  lemma ConfirmKeeps(db: Db, k: Key, o: Order)
    requires Tables(db) && Timing(db) && SeatsDiffer(db) && Caps(db) && AllRows(db)
    requires k in db.intents && !Settled(db.intents[k].state) && db.intents[k].writeStartedAt.Some?
    requires OrderFits(db.intents[k], o) && GraphExists(db, k)
    ensures var w := Write(db, k, ConfirmedGraph(Read(db, k), o));
      Tables(w) && Timing(w) && SeatsDiffer(w) && Caps(w) && AllRows(w)
  {
    assert RowsAt(db, k);
    var h := ConfirmedGraph(Read(db, k), o);
    ConfirmedRow(k, Settings(db, k.cand), Read(db, k), o);
    ReplaceRows(db, k, h);
    assert CandidateInv(db, db.cands[k.cand]);
    ReplaceQuiet(db, k, h);
    QuietTables(db, Write(db, k, h));
    QuietCaps(db, Write(db, k, h));
  }

  lemma RecordShape(db: Db, k: Key, o: Order, now: Time, newMsg: MsgId)
    requires RowsAt(db, k) && (Settled(db.intents[k].state) ==> k in db.orders)
    ensures var e := RecordOrder(db, k, o, now, newMsg).0;
      e == db || (&& !Settled(db.intents[k].state) && OrderFits(db.intents[k], o)
                  && e == Write(db, k, ConfirmedGraph(Read(db, k), o)).(msgs := e.msgs))
  {}

  lemma RecordKeeps(db: Db, k: Key, o: Order, now: Time, newMsg: MsgId)
    requires Inv(db) && Confirmable(db, k) && newMsg !in db.msgs
    ensures Inv(RecordOrder(db, k, o, now, newMsg).0)
  {
    assert RowsAt(db, k);
    RecordShape(db, k, o, now, newMsg);
    var e := RecordOrder(db, k, o, now, newMsg).0;
    if e != db {
      RecordMail(db, k, o, now, newMsg);
      ConfirmKeeps(db, k, o);
      SameButMail(Write(db, k, ConfirmedGraph(Read(db, k), o)), e);
    }
  }

  lemma MailRows(d: Db, e: Db)
    requires AllRows(d) && e == d.(msgs := e.msgs)
    ensures AllRows(e)
  {}

  /** Messages only matter to the mail part of the invariant. */
  lemma SameButMail(d: Db, e: Db)
    requires Tables(d) && AllRows(d) && Timing(d) && SeatsDiffer(d) && Caps(d) && Mail(e)
    requires e == d.(msgs := e.msgs)
    ensures Inv(e)
  {
    MailRows(d, e);
    forall c | c in e.cands ensures CandidateInv(e, e.cands[c]) { assert CandidateInv(d, d.cands[c]); }
    CapsFrame(d, e);
  }
}
