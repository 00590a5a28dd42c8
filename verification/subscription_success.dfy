/** The subscription payment confirmation page: the effect that verifies the
    payment at most once per page load (guarded by a latch), the mapping of
    the verification outcome onto the page state, and which view is shown. */
module SubscriptionSuccess {
  import opened JsValues
  import opened Http

  datatype Order = Order(orderId: string, productName: string, amount: int, status: string)

  /** The verification answer: the `success` flag, the order, and a message
      ("" when absent). */
  datatype VerifyBody = VerifyBody(success: bool, order: Option<Order>, message: string)

  /** The page's state. `hasVerified` is the latch; `inFlight` and
      `requests` record the verification requests issued. */
  datatype Page = Page(
    order: Option<Order>,
    loading: bool,
    error: string,
    hasVerified: bool,
    inFlight: bool,
    requests: nat)

  const InitialPage := Page(None, true, "", false, false, 0)

  const NoOrderIdMsg := "No order ID found"
  const DefaultFailureMsg := "Subscription payment verification failed"
  const ThrownMsg := "Failed to verify subscription payment"

  /** `order_id` from the query string is truthy: present and non-empty. */
  predicate HasOrderId(orderId: Option<string>) {
    orderId.Some? && orderId.value != ""
  }

  /** One firing of the effect. With an order id and the latch open, the
      latch closes and the single request goes out; with an order id and the
      latch closed, nothing happens; without an order id there is no request
      and the page shows the missing-id error. The latch never reopens. */
  function Effect(p: Page, orderId: Option<string>): (r: Page)
    ensures r.hasVerified == (p.hasVerified || HasOrderId(orderId))
    ensures r.requests == p.requests + (if HasOrderId(orderId) && !p.hasVerified then 1 else 0)
    ensures r.requests > p.requests ==> !p.hasVerified && r.hasVerified && r.inFlight
    ensures HasOrderId(orderId) && !p.hasVerified ==>
      r == p.(hasVerified := true, inFlight := true, requests := p.requests + 1)
    ensures HasOrderId(orderId) && p.hasVerified ==> r == p
    ensures !HasOrderId(orderId) ==> r == p.(error := NoOrderIdMsg, loading := false)
  {
    if HasOrderId(orderId) && !p.hasVerified then
      p.(hasVerified := true, inFlight := true, requests := p.requests + 1)
    else if !HasOrderId(orderId) then
      p.(error := NoOrderIdMsg, loading := false)
    else p
  }

  /** `data.message || 'Subscription payment verification failed'` */
  function FailureMessage(b: VerifyBody): (r: string)
    ensures r != ""
    ensures b.message != "" ==> r == b.message
    ensures b.message == "" ==> r == DefaultFailureMsg
  {
    if b.message != "" then b.message else DefaultFailureMsg
  }

  /** The verification request settles (a reply with no request in flight is
      ignored). The order is recorded only when the answer is a 2xx whose
      `success` holds; any other answer with a readable body sets the
      server's message or the default one; an unreadable body or a network
      error sets the fixed thrown message. Loading ends on every path. */
  function Settle(p: Page, reply: Reply<VerifyBody>): (r: Page)
    ensures !p.inFlight ==> r == p
    ensures p.inFlight ==> !r.loading && !r.inFlight
    ensures r.hasVerified == p.hasVerified && r.requests == p.requests
    ensures r.order != p.order ==> reply.Success? && reply.body.success && r.order == reply.body.order
    ensures p.inFlight && reply.Success? && reply.body.success ==> r.order == reply.body.order && r.error == p.error
    ensures p.inFlight && reply.Success? && !reply.body.success ==> r.error == FailureMessage(reply.body)
    ensures p.inFlight && reply.Failure? && reply.errorBody.Some? ==> r.error == FailureMessage(reply.errorBody.value)
    ensures p.inFlight && (reply.Thrown? || (reply.Failure? && reply.errorBody.None?)) ==> r.error == ThrownMsg
  {
    if !p.inFlight then p
    else
      var done := p.(loading := false, inFlight := false);
      match reply
      case Success(b) =>
        if b.success then done.(order := b.order) else done.(error := FailureMessage(b))
      case Failure(eb) =>
        if eb.Some? then done.(error := FailureMessage(eb.value)) else done.(error := ThrownMsg)
      case Thrown => done.(error := ThrownMsg)
  }

  /** Re-renders fire the effect again; replies arrive for issued requests. */
  datatype Event = Fire | Answer(reply: Reply<VerifyBody>)

  function Step(p: Page, orderId: Option<string>, e: Event): Page {
    match e
    case Fire => Effect(p, orderId)
    case Answer(reply) => Settle(p, reply)
  }

  /** The page's state after a run of events for one order id. */
  function Run(p: Page, orderId: Option<string>, events: seq<Event>): Page
    decreases |events|
  {
    if |events| == 0 then p else Run(Step(p, orderId, events[0]), orderId, events[1..])
  }

  /** The latch accounts for every request: one was issued exactly when the
      latch is closed, and none is in flight while it is open. */
  predicate LatchAccounts(p: Page) {
    p.requests == (if p.hasVerified then 1 else 0) && (p.inFlight ==> p.hasVerified)
  }

  /** However many times the effect fires, and however replies interleave,
      at most one verification request is ever issued. */
  lemma {:induction false} AtMostOneRequest(p: Page, orderId: Option<string>, events: seq<Event>)
    requires LatchAccounts(p)
    ensures LatchAccounts(Run(p, orderId, events))
    ensures Run(p, orderId, events).requests <= 1
    decreases |events|
  {
    if |events| > 0 {
      AtMostOneRequest(Step(p, orderId, events[0]), orderId, events[1..]);
    }
  }

  /** From a fresh page load, however the effect fires and replies arrive,
      at most one verification request is issued. */
  lemma OneRequestPerPageLoad(orderId: Option<string>, events: seq<Event>)
    ensures Run(InitialPage, orderId, events).requests <= 1
  {
    AtMostOneRequest(InitialPage, orderId, events);
  }

  /** The latch, once closed, stays closed through any run of events. */
  lemma {:induction false} LatchNeverReopens(p: Page, orderId: Option<string>, events: seq<Event>)
    requires p.hasVerified
    ensures Run(p, orderId, events).hasVerified
    decreases |events|
  {
    if |events| > 0 {
      LatchNeverReopens(Step(p, orderId, events[0]), orderId, events[1..]);
    }
  }

  /** Without an order id no request is ever issued. */
  lemma {:induction false} NoOrderIdNoRequest(p: Page, orderId: Option<string>, events: seq<Event>)
    requires !HasOrderId(orderId)
    ensures Run(p, orderId, events).requests == p.requests
    decreases |events|
  {
    if |events| > 0 {
      NoOrderIdNoRequest(Step(p, orderId, events[0]), orderId, events[1..]);
    }
  }

  /** Two firings in a row, as a double-run effect does, issue one request. */
  lemma DoubleFiringIssuesOne(orderId: Option<string>)
    requires HasOrderId(orderId)
    ensures Run(InitialPage, orderId, [Fire, Fire]).requests == 1
  {
  }

  datatype View = Verifying | ErrorView(message: string) | Activated(order: Option<Order>)

  /** Loading takes precedence over an error, which takes precedence over the
      success view. */
  function Render(p: Page): (r: View)
    ensures p.loading <==> r == Verifying
    ensures !p.loading && p.error != "" <==> r == ErrorView(p.error)
    ensures !p.loading && p.error == "" <==> r == Activated(p.order)
  {
    if p.loading then Verifying
    else if p.error != "" then ErrorView(p.error)
    else Activated(p.order)
  }

  /** Once the request settles the spinner is gone for good, and the success
      view appears exactly when the verification succeeded. */
  lemma SettledViewFollowsOutcome(p: Page, reply: Reply<VerifyBody>)
    requires p.inFlight && p.error == ""
    ensures Render(Settle(p, reply)) != Verifying
    ensures Render(Settle(p, reply)).Activated? <==> reply.Success? && reply.body.success
  {
  }
}
