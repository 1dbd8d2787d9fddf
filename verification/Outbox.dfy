/** The delivery worker: what it sends, and what it leaves in the queue. */
module OutboxDelivery {
  import opened Wrappers
  import opened Rows
  import opened Planning
  import opened Scheduling
  import opened Checkout
  import opened Mailbox
  import opened Engine
  import opened Invariants
  import opened EngineInv
  import opened Guarantees
  import opened BookingStore

  /** What becomes of one message: the transport's answer, and whether the store can be written afterwards. */
  datatype Outcome = Delivered(telegramId: int) | RateLimited(after: nat) | SendFails | StoreFails

  /** An item handed to the transport, and the clock read just before. */
  datatype Send = Send(item: Item, at: Time)

  /** The clocks around one delivery, its outcome, and what everybody else commits before the first clock and after it. */
  datatype Handover = Handover(before: Time, after: Time, outcome: Outcome, early: Db -> Db, late: Db -> Db)

  function Power(n: nat): nat { if n == 0 then 1 else 2 * Power(n - 1) }

  function Min(a: int, b: int): int { if a <= b then a else b }

  /** The wait after the given number of attempts. */
  function RetryDelay(attempts: nat): nat {
    Min(30 * Power(Min(if attempts >= 1 then attempts - 1 else 0, 6)), 1800)
  }

  /** The wait doubles with each attempt from half a minute up to half an hour. */
  lemma RetryDelayDoubles(attempts: nat)
    requires attempts >= 1
    ensures RetryDelay(1) == 30
    ensures RetryDelay(attempts + 1) == Min(2 * RetryDelay(attempts), 1800)
    ensures 30 <= RetryDelay(attempts) <= 1800
  {}

  predicate NoneSending(msgs: map<MsgId, Message>) { forall m :: m in msgs ==> !msgs[m].state.MsgSending? }

  /** Booking, users and discovery leave messages and orders as they are, and add pending messages only. */
  ghost predicate OthersMay(d: Db, e: Db) {
    && (forall m :: m in d.msgs ==> m in e.msgs && e.msgs[m] == d.msgs[m])
    && (forall m :: m in e.msgs && m !in d.msgs ==> e.msgs[m].state.MsgPending?)
    && (forall k :: k in d.orders ==> k in e.orders && e.orders[k] == d.orders[k])
  }

  ghost predicate Harmless(d: Handover) { forall db :: OthersMay(db, d.early(db)) && OthersMay(db, d.late(db)) }

  /** The delivery worker has a turn now and then among steps of everybody else. */
  ghost predicate Interleaves(deliveries: seq<Handover>) { forall d :: d in deliveries ==> Harmless(d) }

  /** A claimed item may still be sent at this time. */
  predicate MaySend(x: Item, at: Time) { x.chat == x.user && (x.expiresAt.Some? ==> at < x.expiresAt.value) }

  /** The transaction that ends one delivery, unless the store cannot be written. */
  function Own(x: Item, d: Handover): Option<Delivery> {
    if d.outcome.StoreFails? then None
    else if !MaySend(x, d.before) then Some(FinishMail(x.msg, MsgRejected, None))
    else
      match d.outcome
      case Delivered(id) => Some(FinishMail(x.msg, MsgSent, Some(id)))
      case RateLimited(after) => Some(RetryMail(x.msg, d.after + after))
      case _ => Some(RetryMail(x.msg, d.after + RetryDelay(x.attempts)))
  }

  /** The tables after one delivery. */
  ghost function Handed(db: Db, x: Item, d: Handover): Db {
    var e := d.late(d.early(db));
    if Own(x, d).Some? then Deliver(e, Own(x, d).value) else e
  }

  /** The tables after some deliveries, one after the other. */
  ghost function HandedAll(db: Db, items: seq<Item>, deliveries: seq<Handover>): Db
    requires |items| == |deliveries|
  {
    if items == [] then db
    else
      var n := |items| - 1;
      Handed(HandedAll(db, items[..n], deliveries[..n]), items[n], deliveries[n])
  }

  predicate Current(db: Db, m: MsgId) {
    m in db.msgs && (db.msgs[m].kind.Payment? ==>
      var k := db.msgs[m].kind.order; k.cand in db.cands && k.no == db.cands[k.cand].cycleNo && k in db.orders)
  }

  /** The item of a current message, due when it was claimed. */
  predicate ClaimedNow(db: Db, now: Time, x: Item) { IsItem(db, x) && DueMessage(db, x.msg, now) && Current(db, x.msg) }

  /** Messages keep their contents, final ones are untouched, and orders stay. */
  ghost predicate Delivers(d: Db, e: Db) {
    && (forall m :: m in d.msgs ==> m in e.msgs && SameContents(d.msgs[m], e.msgs[m]))
    && (forall k :: k in d.orders ==> k in e.orders && e.orders[k] == d.orders[k])
  }

  predicate SameContents(m: Message, n: Message) {
    n.kind == m.kind && n.buyer == m.buyer && n.chat == m.chat && (Final(m.state) ==> n == m)
  }

  /** No other message is taken up, finished or changed; new ones wait to be sent. */
  ghost predicate OnlyMessage(d: map<MsgId, Message>, e: map<MsgId, Message>, x: MsgId) {
    && (forall m :: m in e && m != x ==> (e[m].state.MsgSending? <==> m in d && d[m].state.MsgSending?))
    && (forall m :: m in d && m != x ==> m in e && e[m] == d[m])
  }

  class OutboxWorker {
    const store: Store
    var interrupted: bool
    ghost var sends: seq<Send>

    /** Only an interrupted pass leaves messages half sent. */
    ghost predicate Valid()
      reads this, store
    {
      interrupted || NoneSending(store.msgs)
    }

    constructor (store: Store)
      requires NoneSending(store.msgs)
      ensures this.store == store && Valid() && sends == []
    {
      this.store, interrupted, sends := store, false, [];
    }

    /** The item is sent exactly if it still may be, and its message ends in another state unless the store fails. */
    method DeliverOne(x: Item, d: Handover) returns (ok: bool)
      requires x.msg in store.msgs && store.msgs[x.msg].state.MsgSending? && Harmless(d)
      modifies store, this`sends
      ensures ok <==> !d.outcome.StoreFails?
      ensures sends == old(sends) + if MaySend(x, d.before) then [Send(x, d.before)] else []
      ensures store.View() == Handed(old(store.View()), x, d) && Delivers(old(store.View()), store.View())
      ensures x.msg in store.msgs && (ok ==> !store.msgs[x.msg].state.MsgSending?)
      ensures store.msgs[x.msg].state.MsgSent? ==> MaySend(x, d.before)
      ensures OnlyMessage(old(store.msgs), store.msgs, x.msg)
    {
      hide Delivers, OthersMay, OnlyMessage, Harmless;
      HandedOn(store.View(), x, d);
      ok := !d.outcome.StoreFails?;
      store.Become(d.early(store.View()));
      if (x.expiresAt.Some? && x.expiresAt.value <= d.before) || x.chat != x.user {
        store.Become(d.late(store.View()));
        if ok { store.FinishMessage(x.msg, MsgRejected, None); }
        return;
      }
      sends := sends + [Send(x, d.before)];
      store.Become(d.late(store.View()));
      match d.outcome {
        case Delivered(id) => store.FinishMessage(x.msg, MsgSent, Some(id));
        case RateLimited(after) => store.ScheduleRetry(x.msg, d.after + after);
        case SendFails => store.ScheduleRetry(x.msg, d.after + RetryDelay(x.attempts));
        case StoreFails =>
      }
    }

    /** The items of one pass, one after the other, until the store can no longer be written. */
    method DeliverAll(items: seq<Item>, deliveries: seq<Handover>) returns (ok: bool, ghost done: nat)
      requires |items| <= |deliveries| && Interleaves(deliveries) && Halfway(store.msgs, items, 0)
      modifies store, this`sends
      ensures done <= |items| && store.View() == HandedAll(old(store.View()), items[..done], deliveries[..done])
      ensures ok ==> done == |items| && NoneSending(store.msgs)
      ensures Delivers(old(store.View()), store.View()) && Sent(old(sends), sends, items)
    {
      hide Handed, Halfway, Delivers, Sent, OnlyMessage, Harmless;
      ghost var db, base := store.View(), sends;
      var i := 0;
      ok := true;
      DeliversStart(db, base, items);
      while i < |items| && ok
        invariant 0 <= i <= |items| && Delivers(db, store.View()) && Sent(base, sends, items[..i])
        invariant store.View() == HandedAll(db, items[..i], deliveries[..i])
        invariant ok ==> Halfway(store.msgs, items, i)
      {
        ghost var mid, was := store.View(), sends;
        HalfwayHere(store.msgs, items, i);
        ok := DeliverOne(items[i], deliveries[i]);
        DeliversAgain(db, mid, store.View());
        SentMore(base, was, sends, items, i, deliveries[i].before, mid.msgs);
        if ok { HalfwayOn(mid.msgs, store.msgs, items, i); }
        HandedMore(db, items, deliveries, i);
        i := i + 1;
      }
      done := i;
      SentWithin(base, sends, items, i);
      if ok { HalfwayDone(store.msgs, items); }
    }

    /**
     One pass. The messages that are due are claimed up to the limit; everybody else may commit before each
     delivery. A pass that returns leaves nothing half sent; a pass that is cut short is marked, and the next one
     first returns to the queue what was left.
     */
    method RunOnce(now: Time, limit: nat, deliveries: seq<Handover>)
      returns (count: Option<nat>, ghost queued: Db, ghost chosen: set<MsgId>, ghost items: seq<Item>, ghost done: nat)
      requires Valid() && limit > 0 && |deliveries| >= limit && Interleaves(deliveries)
      modifies this, store
      ensures Valid() && (count.Some? <==> !interrupted) && (count.Some? ==> NoneSending(store.msgs))
      ensures queued == if old(interrupted) then RecoverMessages(old(store.View()), now) else old(store.View())
      ensures |chosen| <= limit && forall m :: m in chosen ==> DueMessage(queued, m, now)
      ensures |chosen| < limit ==> forall m :: DueMessage(queued, m, now) ==> m in chosen
      ensures ItemsOf(queued, items, ToSend(queued, now, chosen))
      ensures forall i :: 0 <= i < |items| ==> ClaimedNow(queued, now, items[i])
      ensures done <= |items| && done <= |deliveries| && (count.Some? ==> done == |items|)
      ensures store.View() == HandedAll(ClaimMessages(queued, now, chosen), items[..done], deliveries[..done])
      ensures Sent(old(sends), sends, items) && Delivers(old(store.View()), store.View())
    {
      hide HandedAll, Sent, ItemsOf, Halfway;
      ghost var db := store.View();
      if interrupted { store.RecoverSending(now); }
      interrupted := true;
      queued := store.View();
      var list: seq<Item>;
      list, chosen := store.ClaimDueMessages(now, limit);
      items := list;
      ghost var claimed := store.View();
      ClaimDelivers(queued, now, chosen);
      ClaimedHalfway(queued, now, chosen, items);
      DeliversAgain(db, queued, claimed);
      var ok: bool;
      ok, done := DeliverAll(list, deliveries);
      DeliversAgain(db, claimed, store.View());
      if !ok {
        count := None;
      } else {
        interrupted := false;
        count := Some(|list|);
      }
    }
  }

  /** Exactly the items from `i` on are being sent. */
  ghost predicate Halfway(msgs: map<MsgId, Message>, items: seq<Item>, i: int) {
    && 0 <= i <= |items|
    && (forall j :: i <= j < |items| ==> items[j].msg in msgs && msgs[items[j].msg].state.MsgSending?)
    && (forall m :: m in msgs && msgs[m].state.MsgSending? ==> exists j :: i <= j < |items| && items[j].msg == m)
    && (forall j, l :: 0 <= j < l < |items| ==> items[j].msg != items[l].msg)
  }

  lemma HalfwayHere(msgs: map<MsgId, Message>, items: seq<Item>, i: int)
    requires Halfway(msgs, items, i) && i < |items|
    ensures items[i].msg in msgs && msgs[items[i].msg].state.MsgSending?
  {}

  lemma HalfwayDone(msgs: map<MsgId, Message>, items: seq<Item>)
    requires Halfway(msgs, items, |items|)
    ensures NoneSending(msgs)
  {}

  lemma DeliversStart(db: Db, base: seq<Send>, items: seq<Item>)
    ensures Delivers(db, db) && Sent(base, base, items[..0])
  {}

  lemma HandedMore(db: Db, items: seq<Item>, deliveries: seq<Handover>, i: nat)
    requires i < |items| <= |deliveries|
    ensures HandedAll(db, items[..i + 1], deliveries[..i + 1]) == Handed(HandedAll(db, items[..i], deliveries[..i]), items[i], deliveries[i])
  {
    assert items[..i + 1][..i] == items[..i] && deliveries[..i + 1][..i] == deliveries[..i];
  }

  /** A delivery touches one message that is being sent, and the others add pending ones only. */
  lemma HandedOn(db: Db, x: Item, d: Handover)
    requires x.msg in db.msgs && db.msgs[x.msg].state.MsgSending? && Harmless(d)
    ensures var e := Handed(db, x, d);
      && Delivers(db, e) && x.msg in e.msgs && (Own(x, d).Some? ==> !e.msgs[x.msg].state.MsgSending?)
      && (e.msgs[x.msg].state.MsgSent? ==> MaySend(x, d.before))
      && OnlyMessage(db.msgs, e.msgs, x.msg)
  {
    hide RetryDelay, Own, MaySend, Deliver;
    var u := d.early(db);
    var v := d.late(u);
    assert OthersMay(db, u) && OthersMay(u, v);
    OthersTwice(db, u, v);
    if Own(x, d).Some? { OwnTouches(v, x, d); }
  }

  lemma OthersTwice(d: Db, e: Db, f: Db)
    requires OthersMay(d, e) && OthersMay(e, f)
    ensures OthersMay(d, f)
  {}

  /** The message once its delivery has been recorded. */
  function OwnRow(m: Message, y: Delivery): Message {
    match y
    case FinishMail(_, state, id) => m.(state := state, telegramId := id)
    case RetryMail(_, at) => m.(state := MsgRetry, nextAttemptAt := at)
    case _ => m
  }

  /** The transaction takes the message out of the sending state. */
  predicate Ends(y: Delivery, m: MsgId) {
    (y.RetryMail? || (y.FinishMail? && (y.s.MsgRejected? || y.s.MsgSent?))) && y.m == m
  }

  lemma OwnMoves(x: Item, d: Handover)
    requires Own(x, d).Some?
    ensures var y := Own(x, d).value; Ends(y, x.msg) && (y.FinishMail? && y.s.MsgSent? ==> MaySend(x, d.before))
  {
    hide RetryDelay, MaySend;
  }

  lemma OwnPuts(db: Db, m: MsgId, y: Delivery)
    requires m in db.msgs && db.msgs[m].state.MsgSending? && Ends(y, m)
    ensures Deliver(db, y) == db.(msgs := db.msgs[m := OwnRow(db.msgs[m], y)])
  {
    hide EnqueueSummary, ClaimMessages, RecoverMessages, DueMessage;
  }

  /** The worker's own transaction moves its message out of the sending state. */
  lemma OwnTouches(db: Db, x: Item, d: Handover)
    requires x.msg in db.msgs && db.msgs[x.msg].state.MsgSending? && Own(x, d).Some?
    ensures var e := Deliver(db, Own(x, d).value);
      && e.orders == db.orders && e.msgs.Keys == db.msgs.Keys && SameContents(db.msgs[x.msg], e.msgs[x.msg])
      && !e.msgs[x.msg].state.MsgSending? && (e.msgs[x.msg].state.MsgSent? ==> MaySend(x, d.before))
      && forall m :: m in db.msgs && m != x.msg ==> e.msgs[m] == db.msgs[m]
  {
    hide Own, Deliver, MaySend;
    OwnMoves(x, d);
    OwnPuts(db, x.msg, Own(x, d).value);
  }

  lemma HalfwayOn(d: map<MsgId, Message>, e: map<MsgId, Message>, items: seq<Item>, i: int)
    requires Halfway(d, items, i) && i < |items|
    requires items[i].msg in e && !e[items[i].msg].state.MsgSending?
    requires OnlyMessage(d, e, items[i].msg)
    ensures Halfway(e, items, i + 1)
  {
    forall m | m in e && e[m].state.MsgSending? ensures exists j :: i + 1 <= j < |items| && items[j].msg == m {
      var j :| i <= j < |items| && items[j].msg == m;
    }
  }

  /** The new sends are of distinct items, each while it may be sent. */
  ghost predicate Sent(was: seq<Send>, now: seq<Send>, items: seq<Item>) {
    && |was| <= |now| && now[..|was|] == was
    && (forall i :: |was| <= i < |now| ==> now[i].item in items && MaySend(now[i].item, now[i].at))
    && (forall i, j :: |was| <= i < j < |now| ==> now[i].item.msg != now[j].item.msg)
  }

  lemma SentMore(base: seq<Send>, was: seq<Send>, now: seq<Send>, items: seq<Item>, i: int, at: Time,
                 msgs: map<MsgId, Message>)
    requires 0 <= i < |items| && Sent(base, was, items[..i]) && Halfway(msgs, items, i)
    requires now == was + if MaySend(items[i], at) then [Send(items[i], at)] else []
    ensures Sent(base, now, items[..i + 1])
  {
    assert items[..i + 1] == items[..i] + [items[i]];
    forall x | x in items[..i] ensures x.msg != items[i].msg { var j :| 0 <= j < i && items[..i][j] == x; }
  }

  lemma SentWithin(base: seq<Send>, now: seq<Send>, items: seq<Item>, i: int)
    requires 0 <= i <= |items| && Sent(base, now, items[..i])
    ensures Sent(base, now, items)
  {
    forall x | x in items[..i] ensures x in items { var j :| 0 <= j < i && items[..i][j] == x; assert items[j] == x; }
  }

  lemma DeliversAgain(d: Db, e: Db, f: Db)
    requires Delivers(d, e) && Delivers(e, f)
    ensures Delivers(d, f)
  {
    forall m | m in d.msgs ensures m in f.msgs && SameContents(d.msgs[m], f.msgs[m]) {
      assert SameContents(d.msgs[m], e.msgs[m]) && SameContents(e.msgs[m], f.msgs[m]);
    }
  }

  lemma ClaimDelivers(db: Db, now: Time, chosen: set<MsgId>)
    requires forall m :: m in chosen ==> DueMessage(db, m, now)
    ensures Delivers(db, ClaimMessages(db, now, chosen)) && Delivers(db, db)
  {
    forall m | m in chosen ensures m in db.msgs && !Final(db.msgs[m].state) { assert DueMessage(db, m, now); }
  }

  /** Only due messages of known buyers, and payments only of current cycles, are let through. */
  lemma ClaimedHalfway(db: Db, now: Time, chosen: set<MsgId>, items: seq<Item>)
    requires NoneSending(db.msgs) && forall m :: m in chosen ==> DueMessage(db, m, now)
    requires ItemsOf(db, items, ToSend(db, now, chosen))
    ensures Halfway(ClaimMessages(db, now, chosen).msgs, items, 0)
    ensures forall i :: 0 <= i < |items| ==> ClaimedNow(db, now, items[i])
  {
    var e := ClaimMessages(db, now, chosen);
    forall m | m in e.msgs && e.msgs[m].state.MsgSending? ensures exists j :: 0 <= j < |items| && items[j].msg == m {
      assert m in ToSend(db, now, chosen);
    }
  }

  /** What an interrupted pass left half sent is due again at once. */
  lemma RecoveredIsDue(db: Db, now: Time, m: MsgId)
    requires m in db.msgs && db.msgs[m].state.MsgSending?
    ensures DueMessage(RecoverMessages(db, now), m, now) && NoneSending(RecoverMessages(db, now).msgs)
  {}

  // ----- payment messages of a running engine

  /** In every reachable state a claimed payment message is superseded, expired or sent, and never rejected. */
  lemma PaymentIsClaimed(s: Sys, m: MsgId, k: Key, now: Time)
    requires Reachable(s) && m in s.db.msgs && s.db.msgs[m].kind == Payment(k) && s.db.msgs[m].buyer in s.db.buyers
    ensures k in s.db.orders && k.cand in s.db.cands
    ensures ClaimState(s.db, s.db.msgs[m], now) ==
      if k.no < s.db.cands[k.cand].cycleNo then MsgSuperseded
      else if s.db.orders[k].expiresAt <= now then MsgExpired
      else MsgSending
  {
    hide Step, AllRows, RowsAt, RowInv;
    OnePaymentMessage(s);
    ReachableTables(s);
    assert k in s.db.cycles;
    assert CandidateInv(s.db, s.db.cands[k.cand]);
  }
}
