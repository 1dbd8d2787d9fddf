/** What delivery makes of a message, in terms of the rows, the clocks and the transport's answer alone. */
module Deliveries {
  import opened Wrappers
  import opened Rows
  import opened Planning
  import opened Checkout
  import opened Mailbox
  import opened Engine
  import opened BookingStore
  import opened OutboxDelivery

  // ----- claiming

  /** A message that waits, and whose time has come. */
  predicate IsDue(db: Db, m: MsgId, now: Time) {
    m in db.msgs && db.msgs[m].state in {MsgPending, MsgRetry} && db.msgs[m].nextAttemptAt <= now
  }

  /** Those that have been due longest come first, then the older ones. */
  predicate WaitsLonger(m: Message, n: Message) {
    m.nextAttemptAt < n.nextAttemptAt || (m.nextAttemptAt == n.nextAttemptAt && m.createdAt <= n.createdAt)
  }

  /** All that a payment message is about is there. */
  predicate IsComplete(db: Db, k: Key) {
    k in db.orders && k in db.intents && k in db.cycles && k.cand in db.cands && db.cands[k.cand].session in db.sessions
  }

  /** A claimed message may be sent, or is closed for good. */
  predicate IsSorted(db: Db, m: Message, n: Message, now: Time) {
    && n == m.(attempts := m.attempts + 1, state := n.state)
    && if m.buyer !in db.buyers then n.state.MsgRejected?
       else if m.kind.Summary? then n.state.MsgSending?
       else if !IsComplete(db, m.kind.order) then n.state.MsgRejected?
       else if m.kind.order.no != db.cands[m.kind.order.cand].cycleNo then n.state.MsgSuperseded?
       else if db.orders[m.kind.order].expiresAt <= now then n.state.MsgExpired?
       else n.state.MsgSending?
  }

  /** The claim of these messages. */
  ghost predicate SortsMail(d: Db, e: Db, chosen: set<MsgId>, now: Time) {
    && e == d.(msgs := e.msgs) && e.msgs.Keys == d.msgs.Keys
    && forall m :: m in d.msgs ==> if m in chosen then IsSorted(d, d.msgs[m], e.msgs[m], now) else e.msgs[m] == d.msgs[m]
  }

  lemma ClaimSortsMail(db: Db, now: Time, chosen: set<MsgId>)
    ensures SortsMail(db, ClaimMessages(db, now, chosen), chosen, now)
  {}

  /** The item goes to the chat the message was addressed to, for the user its buyer is, and expires with the order. */
  predicate IsItemOf(db: Db, x: Item) {
    && x.msg in db.msgs && db.msgs[x.msg].buyer in db.buyers
    && x.chat == db.msgs[x.msg].chat && x.user == db.buyers[db.msgs[x.msg].buyer].user && x.attempts == db.msgs[x.msg].attempts + 1
    && x.expiresAt == (match db.msgs[x.msg].kind
                       case Summary(_) => None
                       case Payment(k) => if k in db.orders then Some(db.orders[k].expiresAt) else None)
  }

  // ----- sending

  /** It is not too late, and the chat is the buyer's own. */
  predicate InTime(x: Item, at: Time) { x.chat == x.user && (x.expiresAt.None? || at < x.expiresAt.value) }

  /** Which messages are due, in which order they are claimed and sent, what their items say, and until when they are sent. */
  lemma TermsExactly(db: Db, m: MsgId, n: MsgId, x: Item, now: Time)
    ensures DueMessage(db, m, now) <==> IsDue(db, m, now)
    ensures m in db.msgs && n in db.msgs ==> (AttemptBefore(db.msgs, m, n) <==> WaitsLonger(db.msgs[m], db.msgs[n]))
    ensures m in db.msgs && n in db.msgs ==>
      (MadeBefore(db.msgs, m, n) <==>
         db.msgs[m].createdAt < db.msgs[n].createdAt || (db.msgs[m].createdAt == db.msgs[n].createdAt && m <= n))
    ensures IsItem(db, x) <==> IsItemOf(db, x)
    ensures MaySend(x, now) <==> InTime(x, now)
  {}

  /** Half a minute after the first attempt, twice as long after each other one, but half an hour at most. */
  ghost predicate IsWait(w: int, attempts: nat) {
    if attempts <= 1 then w == 30
    else if attempts >= 7 then w == 1800
    else w == 30 * Power(attempts - 1)
  }

  /** The message once its delivery has been recorded. */
  ghost predicate IsDelivered(m: Message, n: Message, x: Item, d: Handover) {
    if d.outcome.StoreFails? then n == m
    else if !InTime(x, d.before) then n == m.(state := MsgRejected, telegramId := None)
    else match d.outcome
      case Delivered(id) => n == m.(state := MsgSent, telegramId := Some(id))
      case RateLimited(after) => n == m.(state := MsgRetry, nextAttemptAt := d.after + after)
      case _ => n == m.(state := MsgRetry, nextAttemptAt := n.nextAttemptAt) && IsWait(n.nextAttemptAt - d.after, x.attempts)
  }

  lemma PowersGrow(n: nat)
    ensures Power(0) == 1 && Power(n + 1) == 2 * Power(n) && Power(6) == 64 && Power(5) == 32
  {}

  lemma WaitExactly(attempts: nat)
    ensures IsWait(RetryDelay(attempts), attempts)
  {
    PowersGrow(0);
    if 2 <= attempts <= 6 { SmallPowers(attempts - 1); }
  }

  lemma SmallPowers(n: nat)
    requires n <= 5
    ensures Power(n) <= 32
  {
    assert Power(1) == 2 && Power(2) == 4 && Power(3) == 8 && Power(4) == 16 && Power(5) == 32;
  }

  /** One delivery leaves its message as it should, and every other one as it was. */
  lemma DeliveryEnds(db: Db, x: Item, d: Handover)
    requires x.msg in db.msgs && db.msgs[x.msg].state.MsgSending? && Harmless(d)
    ensures var e := Handed(db, x, d);
      && x.msg in e.msgs && IsDelivered(db.msgs[x.msg], e.msgs[x.msg], x, d)
      && forall m :: m in db.msgs && m != x.msg ==> m in e.msgs && e.msgs[m] == db.msgs[m]
  {
    hide RetryDelay, Deliver, OthersMay, Delivers;
    HandedOn(db, x, d);
    WaitExactly(x.attempts);
    var u := d.early(db);
    var v := d.late(u);
    assert OthersMay(db, u) && OthersMay(u, v);
    OthersTwice(db, u, v);
    OthersKeep(db, v, x.msg);
    if Own(x, d).Some? {
      OwnMoves(x, d);
      OwnPuts(v, x.msg, Own(x, d).value);
    }
  }

  lemma OthersKeep(d: Db, e: Db, m: MsgId)
    requires OthersMay(d, e) && m in d.msgs
    ensures m in e.msgs && e.msgs[m] == d.msgs[m]
  {}
}
