/**
 The rows of the booking database.

 A row is keyed by its unique constraint: a cycle by (candidate, cycle number), and its one checkout
 intent, its one budget allocation and its order by the same pair. Outbox messages have ids of their own.
 Configuration (`Config`) is written once, when the subscription is added.
 */
module Rows {
  import opened Wrappers

  type Time = int
  type SubId = int
  type BuyerId = int
  type SessionId = int
  type BatchId = int
  type CandId = int
  type SeatId = int
  type MsgId = int
  type Currency = int

  /** An amount in minor units. Amounts are compared first by units and then by currency code. */
  datatype Money = Money(minor: nat, currency: Currency) {
    predicate Less(other: Money) {
      minor < other.minor || (minor == other.minor && currency < other.currency)
    }
  }

  /** The subscription settings used after discovery; None is an absent limit. */
  datatype Config = Config(
    ticketCount: nat,
    individual: bool,
    maxSessionsPerBatch: Option<nat>,
    maxTicketPrice: Option<Money>,
    maxOrderTotal: Option<Money>,
    maxBatchTotal: Option<Money>,
    maxActiveOrders: Option<nat>,
    maxActiveTotal: Option<Money>,
    interval: int,
    holdTtl: int,
    retry: int,
    maxCycles: Option<nat>)
  {
    function OrderTicketCount(): nat { if individual then 1 else ticketCount }

    predicate PriceUnlimited() { individual && maxOrderTotal.None? }

    /** The rules checked when a subscription and its renewal policy are constructed. */
    predicate Valid() {
      && ticketCount > 0
      && (PriceUnlimited() ==> maxBatchTotal.None? && maxActiveTotal.None?)
      && (maxSessionsPerBatch.Some? ==> maxSessionsPerBatch.value > 0)
      && (maxActiveOrders.Some? ==> maxActiveOrders.value > 0)
      && interval > 0 && holdTtl > 0 && retry > 0
      && (maxCycles.Some? ==> maxCycles.value > 0)
    }
  }

  datatype Subscription = Subscription(buyer: BuyerId, enabled: bool, deleted: bool, version: nat, config: Config)

  datatype Tracking =
    | Queued | WaitingAvailability | WaitingBudget | RenewalWaiting | RenewalClaimed
    | Submitting | AwaitingPayment | NeedsAttention | SkippedLimit | Stopped | Paused

  /** The states a due candidate may be claimed from. */
  predicate Runnable(t: Tracking) {
    t.Queued? || t.WaitingAvailability? || t.WaitingBudget? || t.RenewalWaiting?
  }

  datatype Candidate = Candidate(
    buyer: BuyerId, sub: SubId, session: SessionId, batch: BatchId, subVersion: nat, live: bool,
    state: Tracking, cycleNo: nat, ticketNo: nat, target: Option<SeatId>,
    nextRunAt: Option<Time>, watchUntil: Option<Time>)

  datatype Key = Key(cand: CandId, no: nat)

  datatype CycleState = CycleSubmitting | CyclePaid | CycleRenewal | CycleElapsed | CycleHeld | CycleRejected | CycleAttention

  datatype Cycle = Cycle(
    state: CycleState, dueAt: Option<Time>, startedAt: Time, endedAt: Option<Time>,
    createdAt: Time, releasedAt: Option<Time>)

  datatype IntentState =
    | Pending | WriteOpen | Validated | RequiresUserAction | Unknown | RetryAllowed | Confirmed | Rejected

  datatype Intent = Intent(
    state: IntentState, seats: seq<SeatId>, reserved: Money, expected: Money,
    holdTtl: int, unlimited: bool, writeStartedAt: Option<Time>, createdAt: Time)

  /** An intent whose outcome is known: no provider write can still be in doubt. */
  predicate Settled(s: IntentState) { s.Confirmed? || s.Rejected? }

  datatype Allocation = Allocation(buyer: BuyerId, batch: BatchId, cand: CandId, reserved: nat, active: bool)

  /** A payment address: text that names a host has the parts a URL splitter reports. */
  datatype Url =
    | Opaque(text: string)
    | Split(scheme: string, user: Option<string>, password: Option<string>, host: string, port: Option<string>,
            path: string, query: string, fragment: string)

  datatype Order = Order(
    providerId: string, seats: seq<SeatId>, total: Money, url: Url, heldAt: Time, expiresAt: Time)

  datatype MessageState = MsgPending | MsgRetry | MsgSending | MsgSent | MsgRejected | MsgSuperseded | MsgExpired

  datatype MessageKind = Payment(order: Key) | Summary(batch: BatchId)

  datatype Message = Message(
    kind: MessageKind, buyer: BuyerId, chat: int, state: MessageState, attempts: nat,
    nextAttemptAt: Time, createdAt: Time, telegramId: Option<int>)

  datatype Buyer = Buyer(chat: int, user: int)

  datatype Session = Session(startsAt: Time)

  datatype Db = Db(
    buyers: map<BuyerId, Buyer>,
    subs: map<SubId, Subscription>,
    sessions: map<SessionId, Session>,
    cands: map<CandId, Candidate>,
    cycles: map<Key, Cycle>,
    intents: map<Key, Intent>,
    allocs: map<Key, Allocation>,
    orders: map<Key, Order>,
    msgs: map<MsgId, Message>)

  /** The rows of one checkout: its intent, cycle, reservation, candidate and, once confirmed, its order. */
  datatype Graph = Graph(cand: Candidate, cycle: Cycle, intent: Intent, alloc: Allocation, order: Option<Order>)

  predicate GraphExists(db: Db, k: Key) {
    k in db.intents && k in db.cycles && k in db.allocs && k.cand in db.cands
  }

  function Read(db: Db, k: Key): Graph
    requires GraphExists(db, k)
  {
    Graph(db.cands[k.cand], db.cycles[k], db.intents[k], db.allocs[k], OrderAt(db, k))
  }

  function OrderAt(db: Db, k: Key): Option<Order> {
    if k in db.orders then Some(db.orders[k]) else None
  }

  function Write(db: Db, k: Key, g: Graph): Db {
    db.(cands := db.cands[k.cand := g.cand], cycles := db.cycles[k := g.cycle], intents := db.intents[k := g.intent],
        allocs := db.allocs[k := g.alloc], orders := if g.order.Some? then db.orders[k := g.order.value] else db.orders)
  }

  function Put(db: Db, c: CandId, a: Candidate): Db { db.(cands := db.cands[c := a]) }

  predicate Distinct<T(==)>(s: seq<T>) {
    forall i, j :: 0 <= i < j < |s| ==> s[i] != s[j]
  }
}
