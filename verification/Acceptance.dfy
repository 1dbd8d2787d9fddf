/** Which answers of the provider are accepted as orders, and what the others come to, in terms of the answer alone. */
module Acceptance {
  import opened Wrappers
  import opened Rows
  import opened Checkout
  import opened Engine
  import opened EngineInv
  import opened EngineProof

  // ----- texts

  ghost predicate AllBlank(t: string) { forall c :: c in t ==> IsBlank(c) }

  /** Stripping takes off blanks at both ends, and all of them. */
  ghost predicate Stripped(s: string, t: string) {
    && (exists l, r :: AllBlank(l) && AllBlank(r) && s == l + t + r)
    && (t != "" ==> !IsBlank(t[0]) && !IsBlank(t[|t| - 1]))
  }

  lemma {:induction false} LeftStripped(s: string)
    ensures exists l :: AllBlank(l) && s == l + StripLeft(s)
    ensures StripLeft(s) != "" ==> !IsBlank(StripLeft(s)[0])
  {
    if s != "" && IsBlank(s[0]) {
      LeftStripped(s[1..]);
      var l :| AllBlank(l) && s[1..] == l + StripLeft(s[1..]);
      assert AllBlank([s[0]] + l) && s == [s[0]] + l + StripLeft(s);
    } else {
      assert AllBlank("") && s == "" + s;
    }
  }

  lemma {:induction false} RightStripped(s: string)
    ensures exists r :: AllBlank(r) && s == StripRight(s) + r
    ensures StripRight(s) != "" ==> !IsBlank(StripRight(s)[|StripRight(s)| - 1]) && StripRight(s)[0] == s[0]
  {
    if s != "" && IsBlank(s[|s| - 1]) {
      var n := |s| - 1;
      RightStripped(s[..n]);
      var r :| AllBlank(r) && s[..n] == StripRight(s[..n]) + r;
      assert AllBlank(r + [s[n]]) && s == StripRight(s) + (r + [s[n]]);
    } else {
      assert AllBlank("") && s == s + "";
    }
  }

  lemma StripIsExact(s: string)
    ensures Stripped(s, Strip(s))
  {
    LeftStripped(s);
    RightStripped(StripLeft(s));
    var l :| AllBlank(l) && s == l + StripLeft(s);
    var r :| AllBlank(r) && StripLeft(s) == Strip(s) + r;
    assert s == l + Strip(s) + r;
  }

  // ----- addresses

  /** An order's page: one name without slashes below `/payment/order/`, with or without a closing slash. */
  ghost predicate OrderPage(path: string) {
    exists name: string :: name != "" && '/' !in name
      && (path == "/payment/order/" + name || path == "/payment/order/" + name + "/")
  }

  /** A plain https address of an order's page on the payment host. */
  ghost predicate OnPaymentHost(u: Url, host: string) {
    && u.Split? && u.scheme == "https" && u.host != "" && u.host == host
    && u.user.None? && u.password.None? && u.fragment == "" && OrderPage(u.path)
  }

  lemma PageIsChecked(path: string)
    ensures PaymentPath(path) <==> OrderPage(path)
  {
    PageUnder(PAYMENT_PATH, path);
  }

  lemma PageUnder(root: string, path: string)
    ensures (root <= path && (var name := Unslashed(path[|root|..]); name != "" && '/' !in name))
       <==> exists name: string :: name != "" && '/' !in name && (path == root + name || path == root + name + "/")
  {
    if root <= path {
      var rest := path[|root|..];
      assert path == root + rest && (rest == Unslashed(rest) || rest == Unslashed(rest) + "/");
      assert path == root + Unslashed(rest) || path == root + Unslashed(rest) + "/";
    }
    if name: string :| name != "" && '/' !in name && (path == root + name || path == root + name + "/") {
      assert root <= path && (path[|root|..] == name || path[|root|..] == name + "/");
      assert name[|name| - 1] in name;
      assert Unslashed(path[|root|..]) == name;
    }
  }

  /** Without one closing slash. */
  function Unslashed(s: string): string { if s != "" && s[|s| - 1] == '/' then s[..|s| - 1] else s }

  // ----- orders

  /** The provider confirms, and says all that is needed to pay: an identifier, a link for the buyer, an amount and dates. */
  ghost predicate HandsOver(o: Observation, host: string) {
    && o.state.CheckoutConfirmed? && o.providerId.Some? && !AllBlank(o.providerId.value)
    && o.url.Some? && o.transferable && OnPaymentHost(o.url.value, host)
    && o.total.Some? && o.heldAt.Some? && o.expiresAt.Some? && o.heldAt.value < o.expiresAt.value
  }

  /** The amount covers what was quoted and, unless the price is unlimited, is covered by what is reserved. */
  predicate FitsAmounts(total: Money, expected: Money, reserved: Money, unlimited: bool) {
    total.currency == expected.currency && expected.minor <= total.minor && (unlimited || total.minor <= reserved.minor)
  }

  /** The provider hands over just what was asked for. */
  ghost predicate Meets(q: Request, o: Observation, host: string) {
    HandsOver(o, host) && o.seats == q.seats && FitsAmounts(o.total.value, q.expected, q.reserved, q.unlimited)
  }

  /** The order of such an answer. */
  ghost predicate IsOrderOf(d: Order, o: Observation) {
    && o.providerId.Some? && Stripped(o.providerId.value, d.providerId) && d.seats == o.seats && Some(d.total) == o.total
    && Some(d.url) == o.url && Some(d.heldAt) == o.heldAt && Some(d.expiresAt) == o.expiresAt
  }

  lemma BlankIsStripped(s: string)
    ensures Strip(s) == "" <==> AllBlank(s)
  {
    StripIsExact(s);
    var l, r :| AllBlank(l) && AllBlank(r) && s == l + Strip(s) + r;
    if Strip(s) != "" { assert s[|l|] == Strip(s)[0]; }
  }

  lemma LinkIsChecked(u: Url, host: string)
    ensures ValidPaymentUrl(u, host) <==> OnPaymentHost(u, host)
    ensures OnPaymentHost(u, host) ==> UrlText(u) != ""
  {
    if u.Split? { PageIsChecked(u.path); }
    if OnPaymentHost(u, host) { assert UrlText(u)[..5] == "https"; }
  }

  /** An answer is accepted exactly if it meets the request, and then as the order it describes. */
  lemma AcceptedExactly(q: Request, o: Observation, host: string)
    requires q.expected.currency == q.reserved.currency
    ensures Validate(q, o, host).Accepted? <==> Meets(q, o, host)
    ensures Validate(q, o, host).Accepted? ==> IsOrderOf(Validate(q, o, host).order, o)
  {
    hide Strip, ValidPaymentUrl, OnPaymentHost, UrlText, AllBlank, Stripped;
    if o.providerId.Some? {
      BlankIsStripped(o.providerId.value);
      StripIsExact(o.providerId.value);
    }
    if o.url.Some? { LinkIsChecked(o.url.value, host); }
  }

  /** Why a confirmed answer is not accepted: the first thing that is wrong with it. */
  ghost predicate Complains(q: Request, o: Observation, host: string, e: ErrorCode) {
    if o.seats != q.seats then
      e == (if exists s :: s in o.seats && s !in q.seats then SeatMismatch else PartialResult)
    else if o.total.None? || !FitsAmounts(o.total.value, q.expected, q.reserved, q.unlimited) then e == AmountMismatch
    else if o.providerId.None? || AllBlank(o.providerId.value) then e == PartialResult
    else if o.url.None? || UrlText(o.url.value) == "" then e == PaymentUrlMissing
    else if !o.transferable || !OnPaymentHost(o.url.value, host) then e == InvalidPaymentUrl
    else if o.heldAt.None? || o.expiresAt.None? then e == ExpiryMissing
    else e == ContractChanged
  }

  lemma ComplaintExactly(q: Request, o: Observation, host: string)
    requires q.expected.currency == q.reserved.currency && o.state.CheckoutConfirmed? && !Meets(q, o, host)
    ensures var r := Validate(q, o, host); r.Refused? && r.state.CheckoutAmbiguous? && Complains(q, o, host, r.error)
  {
    hide Strip, ValidPaymentUrl, OnPaymentHost, UrlText, AllBlank, Stripped;
    AcceptedExactly(q, o, host);
    if o.providerId.Some? { BlankIsStripped(o.providerId.value); }
    if o.url.Some? { LinkIsChecked(o.url.value, host); }
  }

  // ----- what a call of the provider comes to

  function Either(e: Option<ErrorCode>, d: ErrorCode): ErrorCode { if e.Some? then e.value else d }

  /** Exactly what the answer to a submitted checkout comes to. */
  ghost predicate Concludes(q: Request, host: string, a: Answer, r: CheckoutResult) {
    match a
    case TimedOut => r == Refused(CheckoutAmbiguous, TransportTimeout)
    case TransportFails => r == Refused(CheckoutAmbiguous, ContractChanged)
    case Observed(o) =>
      match o.state
      case CheckoutRejected => r == Refused(CheckoutRejected, Either(o.error, ContractChanged))
      case CheckoutUserAction => r == Refused(CheckoutUserAction, Either(o.error, Unsupported))
      case CheckoutConfirmed =>
        if Meets(q, o, host) then r.Accepted? && IsOrderOf(r.order, o)
        else r.Refused? && r.state.CheckoutAmbiguous? && Complains(q, o, host, r.error)
      case _ => r == Refused(CheckoutAmbiguous, Either(o.error, PartialResult))
  }

  /** The state an intent is left in once the answer has been judged. */
  predicate LeftIn(r: CheckoutResult, s: IntentState) {
    match r
    case Accepted(_) => s.Validated?
    case Refused(state, _) =>
      match state
      case CheckoutRejected => s.Rejected?
      case CheckoutUserAction => s.RequiresUserAction?
      case _ => s.Unknown?
  }

  lemma AnswerConcludes(host: string, j: Job, a: Answer, i: Intent, now: Time)
    requires j.request.expected.currency == j.request.reserved.currency
    ensures var (stage, r) := JudgeAnswer(host, j, a); Concludes(j.request, host, a, r) && LeftIn(r, Staged(i, stage, now).state)
  {
    hide Validate, Meets, IsOrderOf, Complains;
    if a.Observed? && a.o.state.CheckoutConfirmed? {
      AcceptedExactly(j.request, a.o, host);
      if !Meets(j.request, a.o, host) { ComplaintExactly(j.request, a.o, host); }
    }
  }
}
