/** What the outbox transactions do to the tables. */
module Mailbox {
  import opened Wrappers
  import opened Rows
  import opened Planning
  import opened Scheduling
  import opened Checkout
  import opened Invariants
  import opened Preservation

  predicate Deliverable(s: MessageState) { s.MsgPending? || s.MsgRetry? }

  /** A message that has been sent, rejected, superseded or found expired is never touched again. */
  predicate Final(s: MessageState) { s.MsgSent? || s.MsgRejected? || s.MsgSuperseded? || s.MsgExpired? }

  predicate DueMessage(db: Db, m: MsgId, now: Time) {
    m in db.msgs && Deliverable(db.msgs[m].state) && db.msgs[m].nextAttemptAt <= now
  }

  predicate PaymentJoins(db: Db, k: Key) {
    && k in db.orders && k in db.intents && k in db.cycles && k.cand in db.cands
    && db.cands[k.cand].session in db.sessions
  }

  /** What claiming makes of a due message: it is sent only for the current cycle and before it expires. */
  function ClaimState(db: Db, m: Message, now: Time): MessageState {
    if m.buyer !in db.buyers then MsgRejected
    else match m.kind
      case Summary(_) => MsgSending
      case Payment(k) =>
        if !PaymentJoins(db, k) then MsgRejected
        else if k.no != db.cands[k.cand].cycleNo then MsgSuperseded
        else if db.orders[k].expiresAt <= now then MsgExpired
        else MsgSending
  }

  function ClaimMessages(db: Db, now: Time, chosen: set<MsgId>): Db {
    db.(msgs := map m | m in db.msgs ::
          var row := db.msgs[m];
          if m in chosen then row.(attempts := row.attempts + 1, state := ClaimState(db, row, now)) else row)
  }

  /** Messages left half sent by an interrupted delivery go back to the queue. */
  function RecoverMessages(db: Db, now: Time): Db {
    db.(msgs := map m | m in db.msgs ::
          if db.msgs[m].state.MsgSending? then db.msgs[m].(state := MsgRetry, nextAttemptAt := now) else db.msgs[m])
  }

  function Finish(db: Db, m: MsgId, s: MessageState, telegramId: Option<int>): Db {
    if m in db.msgs && db.msgs[m].state.MsgSending?
    then db.(msgs := db.msgs[m := db.msgs[m].(state := s, telegramId := telegramId)])
    else db
  }

  function RetryMessage(db: Db, m: MsgId, at: Time): Db {
    if m in db.msgs && db.msgs[m].state.MsgSending?
    then db.(msgs := db.msgs[m := db.msgs[m].(state := MsgRetry, nextAttemptAt := at)])
    else db
  }

  /** One summary per batch and buyer. */
  function EnqueueSummary(db: Db, b: BatchId, buyer: BuyerId, now: Time, newMsg: MsgId): Db {
    if buyer in db.buyers && newMsg !in db.msgs
       && !(exists m :: m in db.msgs && db.msgs[m].kind == Summary(b) && db.msgs[m].buyer == buyer)
    then db.(msgs := db.msgs[newMsg := Message(Summary(b), buyer, db.buyers[buyer].chat, MsgPending, 0, now, now, None)])
    else db
  }

  /** The same messages remain, with the same contents, and final ones are untouched; only summaries are added. */
  ghost predicate MailMoves(d: Db, e: Db) {
    e == d.(msgs := e.msgs) && MessagesMove(d.msgs, e.msgs)
  }

  ghost predicate MessagesMove(d: map<MsgId, Message>, e: map<MsgId, Message>) {
    && (forall m :: m in d ==> m in e && e[m].kind == d[m].kind && e[m].buyer == d[m].buyer && e[m].chat == d[m].chat)
    && (forall m :: m in d && Final(d[m].state) ==> m in e && e[m] == d[m])
    && (forall m :: m in e && m !in d ==> e[m].kind.Summary?)
  }

  lemma MailKeeps(d: Db, e: Db)
    requires Inv(d) && MailMoves(d, e)
    ensures Inv(e)
  {
    hide Tables, CandidateInv, AllRows, RowsAt, RowInv;
    forall k | k in e.orders ensures HasMail(e, k) {
      assert HasMail(d, k);
      var m :| m in d.msgs && IsPaymentOf(d.msgs[m], k);
      assert m in e.msgs && IsPaymentOf(e.msgs[m], k);
    }
    SameButMail(d, e);
  }

  datatype Delivery =
    | ClaimMail(now: Time, chosen: set<MsgId>)
    | RecoverMail(now: Time)
    | FinishMail(m: MsgId, s: MessageState, telegramId: Option<int>)
    | RetryMail(m: MsgId, at: Time)
    | SummaryMail(b: BatchId, buyer: BuyerId, now: Time, newMsg: MsgId)

  ghost function Deliver(db: Db, x: Delivery): Db {
    match x
    case ClaimMail(now, chosen) => if forall m :: m in chosen ==> DueMessage(db, m, now) then ClaimMessages(db, now, chosen) else db
    case RecoverMail(now) => RecoverMessages(db, now)
    case FinishMail(m, s, id) => if s.MsgSent? || s.MsgRejected? then Finish(db, m, s, id) else db
    case RetryMail(m, at) => RetryMessage(db, m, at)
    case SummaryMail(b, buyer, now, id) => EnqueueSummary(db, b, buyer, now, id)
  }

  /** Every outbox transaction leaves final messages, and every booking row, as they are. */
  lemma DeliverMoves(db: Db, x: Delivery)
    ensures MailMoves(db, Deliver(db, x))
  {
    NothingMoves(db);
    match x
    case ClaimMail(now, chosen) => if Deliver(db, x) != db { ClaimMoves(db, now, chosen); }
    case RecoverMail(now) => RecoverMoves(db, now);
    case FinishMail(m, s, id) => if Deliver(db, x) != db { RowMoves(db, m, db.msgs[m].(state := s, telegramId := id)); }
    case RetryMail(m, at) =>
      if Deliver(db, x) != db { RowMoves(db, m, db.msgs[m].(state := MsgRetry, nextAttemptAt := at)); }
    case SummaryMail(b, buyer, now, id) => SummaryMoves(db, b, buyer, now, id);
  }

  lemma NothingMoves(db: Db)
    ensures MailMoves(db, db)
  {}

  lemma RowMoves(db: Db, m: MsgId, row: Message)
    requires m in db.msgs && !Final(db.msgs[m].state) && row.kind == db.msgs[m].kind && row.buyer == db.msgs[m].buyer
    requires row.chat == db.msgs[m].chat
    ensures MailMoves(db, db.(msgs := db.msgs[m := row]))
  {}

  lemma RecoverMoves(db: Db, now: Time)
    ensures MailMoves(db, RecoverMessages(db, now))
  {}

  lemma SummaryMoves(db: Db, b: BatchId, buyer: BuyerId, now: Time, newMsg: MsgId)
    ensures MailMoves(db, EnqueueSummary(db, b, buyer, now, newMsg))
  {}

  lemma ClaimMoves(db: Db, now: Time, chosen: set<MsgId>)
    requires forall m :: m in chosen ==> DueMessage(db, m, now)
    ensures MailMoves(db, ClaimMessages(db, now, chosen))
  {}

  lemma DeliverKeeps(db: Db, x: Delivery)
    requires Inv(db)
    ensures Inv(Deliver(db, x))
  {
    hide *;
    DeliverMoves(db, x);
    MailKeeps(db, Deliver(db, x));
  }
}
