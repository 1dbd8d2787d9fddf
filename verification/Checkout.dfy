/** The checkout values, the validator of provider answers, and what a checkout writes to the tables. */
module Checkout {
  import opened Wrappers
  import opened Rows
  import opened Scheduling

  datatype Stage = WriteStarted | Progress | StageValidated | StageRejected | StageUserAction | StageAmbiguous

  datatype CheckoutState = DryRun | CheckoutConfirmed | CheckoutRejected | CheckoutUserAction | CheckoutAmbiguous

  datatype ErrorCode =
    | SeatConflict | SeatMismatch | AmountMismatch | PartialResult | AuthExpired | Captcha | InvalidPaymentUrl
    | PaymentUrlMissing | ExpiryMissing | ContractChanged | TransportTimeout | Unsupported

  /** The request a transport is given; buyer details are not part of this model. */
  datatype Request = Request(
    key: Key, session: SessionId, seats: seq<SeatId>, expected: Money, reserved: Money, holdTtl: int, unlimited: bool)
  {
    /** The checks a request makes when it is constructed. */
    predicate Valid() {
      && seats != [] && Distinct(seats) && expected.currency == reserved.currency && expected.minor > 0
      && !reserved.Less(expected) && holdTtl > 0
    }
  }

  datatype Observation = Observation(
    state: CheckoutState, error: Option<ErrorCode>, providerId: Option<string>, seats: seq<SeatId>,
    total: Option<Money>, url: Option<Url>, heldAt: Option<Time>, expiresAt: Option<Time>, transferable: bool)

  /** A CONFIRMED result carries an order; every other result carries an error code. */
  datatype CheckoutResult = Accepted(order: Order) | Refused(state: CheckoutState, error: ErrorCode)

  /** The characters that Unicode calls white space. */
  predicate IsBlank(c: char) {
    var n := c as int;
    || 9 <= n <= 13 || 28 <= n <= 32 || n == 133 || n == 160 || n == 5760 || 8192 <= n <= 8202
    || n == 8232 || n == 8233 || n == 8239 || n == 8287 || n == 12288
  }

  function Strip(s: string): string { StripRight(StripLeft(s)) }

  function StripLeft(s: string): string {
    if s != "" && IsBlank(s[0]) then StripLeft(s[1..]) else s
  }

  function StripRight(s: string): string {
    if s != "" && IsBlank(s[|s| - 1]) then StripRight(s[..|s| - 1]) else s
  }

  /** The text of an address. A split address starts with its scheme and `://`. */
  function UrlText(u: Url): string {
    match u
    case Opaque(t) => t
    case Split(scheme, user, password, host, port, path, query, fragment) =>
      scheme + "://"
      + (if user.Some? then user.value + (if password.Some? then ":" + password.value else "") + "@" else "")
      + host + (if port.Some? then ":" + port.value else "") + path
      + (if query == "" then "" else "?" + query) + (if fragment == "" then "" else "#" + fragment)
  }

  const PAYMENT_PATH := "/payment/order/"

  /** The path is `/payment/order/`, one segment without slashes, and at most one closing slash. */
  predicate PaymentPath(path: string) {
    && PAYMENT_PATH <= path
    && var rest := path[|PAYMENT_PATH|..];
       var name := if rest != "" && rest[|rest| - 1] == '/' then rest[..|rest| - 1] else rest;
       name != "" && '/' !in name
  }

  predicate ValidPaymentUrl(u: Url, paymentHost: string) {
    && u.Split? && u.scheme == "https" && u.host != "" && u.host == paymentHost
    && u.user.None? && u.password.None? && PaymentPath(u.path) && u.fragment == ""
  }

  function Ambiguous(e: ErrorCode): CheckoutResult { Refused(CheckoutAmbiguous, e) }

  function OrElse(e: Option<ErrorCode>, d: ErrorCode): ErrorCode { if e.Some? then e.value else d }

  /** Accept only a complete, exact payment handoff for this request. */
  function Validate(q: Request, o: Observation, paymentHost: string): CheckoutResult {
    if o.state != CheckoutConfirmed then Ambiguous(OrElse(o.error, PartialResult))
    else if o.seats != q.seats then
      Ambiguous(if forall s :: s in o.seats ==> s in q.seats then PartialResult else SeatMismatch)
    else if o.total.None? || o.total.value.Less(q.expected) then Ambiguous(AmountMismatch)
    else if o.total.value.currency != q.expected.currency || (!q.unlimited && q.reserved.Less(o.total.value)) then
      Ambiguous(AmountMismatch)
    else if o.providerId.None? || Strip(o.providerId.value) == "" then Ambiguous(PartialResult)
    else if o.url.None? || UrlText(o.url.value) == "" then Ambiguous(PaymentUrlMissing)
    else if !o.transferable || !ValidPaymentUrl(o.url.value, paymentHost) then Ambiguous(InvalidPaymentUrl)
    else if o.heldAt.None? || o.expiresAt.None? then Ambiguous(ExpiryMissing)
    else if o.expiresAt.value <= o.heldAt.value then Ambiguous(ContractChanged)
    else Accepted(Order(Strip(o.providerId.value), o.seats, o.total.value, o.url.value, o.heldAt.value, o.expiresAt.value))
  }

  /** What `submit` makes of a transport answer, with the stage it records last. */
  function Judge(q: Request, o: Observation, paymentHost: string): (Stage, CheckoutResult) {
    match o.state
    case CheckoutRejected => (StageRejected, Refused(CheckoutRejected, OrElse(o.error, ContractChanged)))
    case CheckoutUserAction => (StageUserAction, Refused(CheckoutUserAction, OrElse(o.error, Unsupported)))
    case CheckoutConfirmed =>
      var r := Validate(q, o, paymentHost);
      (if r.Accepted? then StageValidated else StageAmbiguous, r)
    case _ => (StageAmbiguous, Ambiguous(OrElse(o.error, PartialResult)))
  }

  // ----- transactions

  /** A recorded stage. Only the first write opens the intent; a repeated one leaves its state alone. */
  function Staged(i: Intent, stage: Stage, now: Time): Intent {
    match stage
    case WriteStarted => if i.writeStartedAt.None? then i.(writeStartedAt := Some(now), state := WriteOpen) else i
    case Progress => i
    case StageValidated => i.(state := Validated)
    case StageRejected => i.(state := Rejected)
    case StageUserAction => i.(state := RequiresUserAction)
    case StageAmbiguous => i.(state := Unknown)
  }

  function StagedGraph(g: Graph, stage: Stage, now: Time): Graph { g.(intent := Staged(g.intent, stage, now)) }

  function RecordStage(db: Db, k: Key, stage: Stage, now: Time): Db {
    if !GraphExists(db, k) then db
    else
      Write(db, k, StagedGraph(Read(db, k), stage, now))
  }

  datatype RecordOutcome = Recorded(msg: MsgId) | RecordLookup | Mismatch | Incomplete | DifferentOrder | NoAllocation

  predicate OrderFits(i: Intent, o: Order) {
    && i.seats == o.seats
    && o.total.minor >= i.expected.minor
    && (i.unlimited || o.total.minor <= i.reserved.minor)
    && i.expected.currency == o.total.currency
  }

  predicate HandoffComplete(o: Order) { o.expiresAt > o.heldAt && Strip(UrlText(o.url)) != "" }

  predicate SameOrder(a: Order, b: Order) {
    a.providerId == b.providerId && a.seats == b.seats && a.total == b.total && a.url == b.url
  }

  predicate IsPaymentOf(m: Message, k: Key) { m.kind == Payment(k) }

  ghost predicate HasMail(db: Db, k: Key) {
    exists m :: m in db.msgs && IsPaymentOf(db.msgs[m], k)
  }

  function ConfirmedGraph(g: Graph, o: Order): Graph {
    g.(alloc := g.alloc.(reserved := o.total.minor), order := Some(o),
       intent := g.intent.(state := Confirmed), cycle := g.cycle.(state := CyclePaid),
       cand := g.cand.(state := if g.cand.state.Stopped? then Stopped else AwaitingPayment))
  }

  /** A confirmed order, its payment message and the confirmed states are written together. */
  ghost function RecordOrder(db: Db, k: Key, o: Order, now: Time, newMsg: MsgId): (Db, RecordOutcome) {
    if !GraphExists(db, k) || db.cands[k.cand].buyer !in db.buyers then (db, RecordLookup)
    else if !OrderFits(db.intents[k], o) then (db, Mismatch)
    else if !HandoffComplete(o) then (db, Incomplete)
    else if k in db.orders then
      if !SameOrder(db.orders[k], o) then (db, DifferentOrder)
      else if !HasMail(db, k) then (db, RecordLookup)
      else
        var m :| m in db.msgs && IsPaymentOf(db.msgs[m], k);
        (db, Recorded(m))
    else if !db.allocs[k].active then (db, NoAllocation)
    else
      var b := db.cands[k.cand].buyer;
      var m := Message(Payment(k), b, db.buyers[b].chat, MsgPending, 0, now, now, None);
      (Write(db, k, ConfirmedGraph(Read(db, k), o)).(msgs := db.msgs[newMsg := m]), Recorded(newMsg))
  }

  /** The candidate already holds an order of some cycle. */
  predicate HasOrder(db: Db, c: CandId) {
    exists j :: j in db.orders && j.cand == c
  }

  /** A definite refusal returns the reservation, and the seat unless an order has fixed it. */
  function RefusedGraph(g: Graph, ordered: bool, now: Time, retry: int, stop: bool): Graph {
    var y := g.cycle.(state := CycleRejected, endedAt := Some(now));
    var a := g.cand.(target := if g.cand.ticketNo > 0 && !ordered then None else g.cand.target);
    Graph(if stop then Halted(a) else a.(state := WaitingAvailability, nextRunAt := Some(now + retry)),
          if g.alloc.active then y.(releasedAt := Some(now)) else y,
          g.intent.(state := Rejected), g.alloc.(active := false), g.order)
  }

  function RejectIntent(db: Db, k: Key, now: Time, retry: int, stop: bool): Db {
    if !GraphExists(db, k) then db
    else Write(db, k, RefusedGraph(Read(db, k), HasOrder(db, k.cand), now, retry, stop))
  }

  predicate Broadcasts(e: ErrorCode) { e.Captcha? || e.AuthExpired? || e.ContractChanged? }

  predicate Sibling(a: Candidate, b: Candidate) {
    && b.buyer == a.buyer && b.session == a.session
    && (b.state.Queued? || b.state.RenewalClaimed? || b.state.WaitingAvailability?)
  }

  /** The slots of the same buyer and session that have not started anything are blocked as well. */
  function BlockSiblings(db: Db, a: Candidate): Db {
    db.(cands := map c | c in db.cands :: if Sibling(a, db.cands[c]) then Blocked(db.cands[c]) else db.cands[c])
  }

  function DoubtfulGraph(g: Graph): Graph { BlockedGraph(g).(intent := g.intent.(state := Unknown)) }

  /** An outcome in doubt blocks the candidate; some errors also block its sibling slots. */
  function IntentNeedsAttention(db: Db, k: Key, e: ErrorCode): Db {
    if !GraphExists(db, k) then db
    else
      var g := Read(db, k);
      var d := Write(db, k, DoubtfulGraph(g));
      if Broadcasts(e) then BlockSiblings(d, g.cand) else d
  }

  datatype Disposition = AllowRetry | ConfirmFound(order: Order) | Block(error: ErrorCode)

  /** What startup recovery decided about one interrupted intent. */
  function Resolved(g: Graph, d: Disposition): Graph {
    match d
    case AllowRetry =>
      g.(intent := g.intent.(state := if g.intent.writeStartedAt.None? then Pending else RetryAllowed),
         cycle := g.cycle.(state := CycleSubmitting),
         cand := if g.cand.state.Stopped? || g.cand.state.Paused? then g.cand else g.cand.(state := Submitting))
    case ConfirmFound(_) =>
      g.(intent := g.intent.(state := Validated), cycle := g.cycle.(state := CycleSubmitting),
         cand := g.cand.(state := Submitting))
    case Block(_) =>
      g.(intent := g.intent.(state := Unknown), cycle := g.cycle.(state := CycleAttention),
         cand := g.cand.(state := NeedsAttention))
  }

  function ApplyRecovery(db: Db, k: Key, d: Disposition): Db {
    if !GraphExists(db, k) then db else Write(db, k, Resolved(Read(db, k), d))
  }

  /** The request rebuilt from the tables. */
  function LoadRequest(db: Db, k: Key): Request
    requires k in db.intents && k.cand in db.cands
  {
    var i := db.intents[k];
    Request(k, db.cands[k.cand].session, i.seats, i.expected, i.reserved, i.holdTtl, i.unlimited)
  }
}
