/**
 * The three payment endpoints of the API: create a gateway order, verify the
 * signature the gateway's checkout returns to the browser, and receive the
 * gateway's webhook. Each handler is a function from the request (and the
 * collaborators it calls) to what it ends with. HMAC-SHA256 with hex output
 * (section 2 of RFC 2104 over SHA-256 of section 6.2 of FIPS 180-4), the
 * JSON serialiser and the gateway's `orders.create` are parameters and are
 * not interpreted.
 */
module PaymentRoutes {
  import opened Wrappers

  /** `crypto.createHmac('sha256', key).update(message).digest('hex')` as `hmac(key, message)`. */
  type Hmac = (string, string) -> string

  /** The process environment the handlers read. */
  datatype Env = Env(keyId: Option<string>, keySecret: Option<string>, webhookSecret: Option<string>)

  /** A JSON body a handler sends. */
  datatype Body =
    | OrderCreated(orderId: string, amount: int, currency: string, keyId: Option<string>)
    | PaymentVerified(verified: bool, paymentId: string, orderId: string, message: string)
    | WebhookReceived(received: bool)
    | PlainText(text: string)

  /** How a handler ends: it sent a response, or it threw an Error to the
      framework while `res.statusCode` held `status`. */
  datatype Outcome = Sent(status: int, body: Body) | Thrown(status: int, message: string)

  // ---------------------------------------------------------------- createOrder

  /** `req.body.amount` (a JSON number of rupees; None when the key is absent or null),
      `req.body.currency` (None when the key is absent, so the default 'INR' applies),
      and the authenticated user's id. */
  datatype CreateOrderRequest = CreateOrderRequest(amount: Option<real>, currency: Option<string>, userId: string)

  /** What is passed to `razorpay.orders.create` (the receipt, built from the clock, is left out). */
  datatype GatewayOrderOptions = GatewayOrderOptions(amount: int, currency: string, userId: string)

  /** What the gateway returns for a created order. */
  datatype GatewayOrder = GatewayOrder(id: string, amount: int, currency: string)

  /** The module-level client: `null` when construction failed, otherwise a
      client whose `orders.create` either resolves (Some) or rejects (None). */
  datatype Gateway = Unconfigured | Configured(create: GatewayOrderOptions -> Option<GatewayOrder>)

  /** The outcome, together with the call made to the gateway, if any. */
  datatype CreateOrderResult = CreateOrderResult(outcome: Outcome, gatewayCall: Option<GatewayOrderOptions>)

  const InvalidAmount := "Invalid amount"
  const NotConfigured := "Payment service not configured. Please set up Razorpay keys."
  const CreateFailed := "Error creating payment order"

  /** `!amount || amount <= 0` is false: the amount is present, non-zero and positive. */
  predicate AmountValid(amount: Option<real>) {
    amount.Some? && amount.value > 0.0
  }

  /** `Math.round(x)`: the nearest integer, halves rounded up. */
  function MathRound(x: real): (n: int)
    ensures x - 0.5 < n as real <= x + 0.5
  {
    (x + 0.5).Floor
  }

  /** Rupees to paise, `Math.round(amount * 100)`. */
  function ToPaise(rupees: real): (paise: int)
    ensures rupees * 100.0 - 0.5 < paise as real <= rupees * 100.0 + 0.5
  {
    MathRound(rupees * 100.0)
  }

  /** POST /api/payment/create-order. */
  function CreateOrder(req: CreateOrderRequest, gateway: Gateway, env: Env): (r: CreateOrderResult)
    // the amount is checked first, before anything else is looked at
    ensures !AmountValid(req.amount) ==> r == CreateOrderResult(Thrown(400, InvalidAmount), None)
    // an unconfigured gateway is reported only for a valid amount
    ensures AmountValid(req.amount) && gateway.Unconfigured? ==>
              r == CreateOrderResult(Thrown(503, NotConfigured), None)
    // the gateway is called exactly when both checks pass, with the amount in paise and INR by default
    ensures r.gatewayCall.Some? <==> AmountValid(req.amount) && gateway.Configured?
    ensures r.gatewayCall.Some? ==>
              r.gatewayCall.value ==
              GatewayOrderOptions(ToPaise(req.amount.value), req.currency.GetOr("INR"), req.userId)
    // success echoes the gateway's order and the publishable key; any gateway failure is a 500
    ensures r.outcome.Sent? <==> r.gatewayCall.Some? && gateway.create(r.gatewayCall.value).Some?
    ensures r.outcome.Sent? ==>
              var o := gateway.create(r.gatewayCall.value).value;
              r.outcome == Sent(200, OrderCreated(o.id, o.amount, o.currency, env.keyId))
    ensures r.gatewayCall.Some? && !r.outcome.Sent? ==> r.outcome == Thrown(500, CreateFailed)
  {
    if !AmountValid(req.amount) then
      CreateOrderResult(Thrown(400, InvalidAmount), None)
    else if gateway.Unconfigured? then
      CreateOrderResult(Thrown(503, NotConfigured), None)
    else
      var options := GatewayOrderOptions(ToPaise(req.amount.value), req.currency.GetOr("INR"), req.userId);
      match gateway.create(options)
      case Some(order) =>
        CreateOrderResult(Sent(200, OrderCreated(order.id, order.amount, order.currency, env.keyId)), Some(options))
      case None =>
        CreateOrderResult(Thrown(500, CreateFailed), Some(options))
  }

  /** Whether the gateway is configured does not affect a request with an invalid amount. */
  lemma InvalidAmountIgnoresGateway(req: CreateOrderRequest, g1: Gateway, g2: Gateway, env: Env)
    requires !AmountValid(req.amount)
    ensures CreateOrder(req, g1, env) == CreateOrder(req, g2, env)
  {
  }

  /** A positive amount below half a paisa passes validation and reaches the gateway as 0 paise. */
  lemma TinyAmountReachesGatewayAsZero(userId: string, create: GatewayOrderOptions -> Option<GatewayOrder>, env: Env)
    ensures CreateOrder(CreateOrderRequest(Some(0.004), None, userId), Configured(create), env).gatewayCall
            == Some(GatewayOrderOptions(0, "INR", userId))
  {
  }

  // -------------------------------------------------------------- verifyPayment

  /** `razorpay_order_id`, `razorpay_payment_id` and `razorpay_signature` of the request body. */
  datatype VerifyRequest = VerifyRequest(orderId: Option<string>, paymentId: Option<string>, signature: Option<string>)

  const MissingParameters := "Missing payment verification parameters"
  const VerifyFailed := "Error verifying payment"
  const VerifiedMessage := "Payment verified successfully"

  /** A JavaScript string field that is neither absent nor empty. */
  predicate Truthy(s: Option<string>) {
    s.Some? && s.value != ""
  }

  predicate HasAllParameters(req: VerifyRequest) {
    Truthy(req.orderId) && Truthy(req.paymentId) && Truthy(req.signature)
  }

  /** The message the gateway signs: `order_id + "|" + payment_id`. */
  function SigningInput(orderId: string, paymentId: string): (m: string)
    ensures |m| == |orderId| + 1 + |paymentId|
    ensures m[..|orderId|] == orderId && m[|orderId|] == '|' && m[|orderId| + 1..] == paymentId
  {
    orderId + "|" + paymentId
  }

  /** The signature check inside the `try`: a secret exists and the hex HMAC of the signing input equals the signature. */
  predicate SignatureMatches(req: VerifyRequest, secret: Option<string>, hmac: Hmac)
    requires HasAllParameters(req)
  {
    secret.Some? && hmac(secret.value, SigningInput(req.orderId.value, req.paymentId.value)) == req.signature.value
  }

  /** POST /api/payment/verify. A mismatch sets 400 and throws inside the `try`;
      the `catch` then sets 500 and throws again, so the mismatch ends as 500. */
  function VerifyPayment(req: VerifyRequest, env: Env, hmac: Hmac): (r: Outcome)
    ensures !HasAllParameters(req) ==> r == Thrown(400, MissingParameters)
    ensures r.Sent? <==> HasAllParameters(req) && SignatureMatches(req, env.keySecret, hmac)
    ensures r.Sent? ==>
              r == Sent(200, PaymentVerified(true, req.paymentId.value, req.orderId.value, VerifiedMessage))
    ensures HasAllParameters(req) && !r.Sent? ==> r == Thrown(500, VerifyFailed)
    ensures r.Sent? || r.status == 400 || r.status == 500
  {
    if !HasAllParameters(req) then
      Thrown(400, MissingParameters)
    else if env.keySecret.None? then
      // createHmac throws on a missing key; the catch turns it into a 500
      Thrown(500, VerifyFailed)
    else
      var expected := hmac(env.keySecret.value, SigningInput(req.orderId.value, req.paymentId.value));
      if expected == req.signature.value then
        Sent(200, PaymentVerified(true, req.paymentId.value, req.orderId.value, VerifiedMessage))
      else
        Thrown(500, VerifyFailed)
  }

  /** No HMAC is computed for a request with a missing parameter: the outcome does not depend on the digest function. */
  lemma MissingParametersIgnoreHmac(req: VerifyRequest, env: Env, h1: Hmac, h2: Hmac)
    requires !HasAllParameters(req)
    ensures VerifyPayment(req, env, h1) == VerifyPayment(req, env, h2)
  {
  }

  /** The genuine signature of a gateway order and payment verifies. */
  lemma GenuineSignatureVerifies(orderId: string, paymentId: string, secret: string, env: Env, hmac: Hmac)
    requires orderId != "" && paymentId != "" && env.keySecret == Some(secret)
    requires hmac(secret, SigningInput(orderId, paymentId)) != ""
    ensures VerifyPayment(VerifyRequest(Some(orderId), Some(paymentId),
                                        Some(hmac(secret, SigningInput(orderId, paymentId)))), env, hmac)
            == Sent(200, PaymentVerified(true, paymentId, orderId, VerifiedMessage))
  {
  }

  /** Any other signature is refused, and with status 500, never 400. */
  lemma ForgedSignatureEndsIn500(req: VerifyRequest, secret: string, env: Env, hmac: Hmac)
    requires HasAllParameters(req) && env.keySecret == Some(secret)
    requires req.signature.value != hmac(secret, SigningInput(req.orderId.value, req.paymentId.value))
    ensures VerifyPayment(req, env, hmac) == Thrown(500, VerifyFailed)
  {
  }

  predicate NoBar(s: string) {
    forall i :: 0 <= i < |s| ==> s[i] != '|'
  }

  /** When an order id contains no '|', the signing input determines both ids,
      so a signature for one pair is a signature for that pair only. */
  lemma {:induction false} SigningInputInjective(o1: string, p1: string, o2: string, p2: string)
    requires NoBar(o1) && NoBar(o2)
    requires SigningInput(o1, p1) == SigningInput(o2, p2)
    ensures o1 == o2 && p1 == p2
  {
    if |o1| < |o2| {
      assert false;
    } else if |o2| < |o1| {
      assert false;
    }
  }

  /** Without that restriction two different pairs share a signing input, and so a signature. */
  lemma SigningInputAmbiguous()
    ensures SigningInput("a|b", "c") == SigningInput("a", "b|c")
  {
  }

  // -------------------------------------------------------------- handleWebhook

  /** The parsed webhook body: its `event` name and what the logging line reads at
      `payload.payment.entity.id`. None stands for a missing `payload`, `payment` or
      `entity`, where reading `.id` throws; an entity without an `id` logs `undefined`
      without throwing, and counts as Some here, since only whether the read throws matters. */
  datatype WebhookEvent = WebhookEvent(event: string, paymentEntityId: Option<string>)

  /** The request: the parsed body and the `x-razorpay-signature` header. */
  datatype WebhookRequest = WebhookRequest(body: WebhookEvent, signature: Option<string>)

  /** The branch of the `switch` an event takes. */
  datatype EventKind = PaymentCaptured | PaymentFailed | Unhandled(name: string)

  /** The library exceptions the `try` can raise besides the signature mismatch. */
  datatype Fault = MissingSecret | MissingPaymentEntity

  const InvalidWebhookSignature := "Invalid webhook signature"

  function Classify(e: WebhookEvent): (k: EventKind)
    ensures k == PaymentCaptured <==> e.event == "payment.captured"
    ensures k == PaymentFailed <==> e.event == "payment.failed"
    ensures k.Unhandled? ==> k.name == e.event
  {
    if e.event == "payment.captured" then PaymentCaptured
    else if e.event == "payment.failed" then PaymentFailed
    else Unhandled(e.event)
  }

  /** The captured and failed branches log `payload.payment.entity.id`, which throws when it is missing. */
  predicate ReadsPaymentEntity(k: EventKind) {
    k == PaymentCaptured || k == PaymentFailed
  }

  /** POST /api/payment/webhook: `serialize` is `JSON.stringify` and `faultMessage`
      gives the message of a library exception. Every path sends a response. */
  function HandleWebhook(req: WebhookRequest, env: Env, hmac: Hmac, serialize: WebhookEvent -> string,
                         faultMessage: Fault -> string): (r: Outcome)
    ensures r.Sent? && (r.status == 200 || r.status == 400)
    ensures env.webhookSecret.None? ==> r == Sent(400, PlainText("Webhook Error: " + faultMessage(MissingSecret)))
    ensures env.webhookSecret.Some? && req.signature != Some(hmac(env.webhookSecret.value, serialize(req.body))) ==>
              r == Sent(400, PlainText("Webhook Error: " + InvalidWebhookSignature))
    ensures && env.webhookSecret.Some?
            && req.signature == Some(hmac(env.webhookSecret.value, serialize(req.body)))
            && ReadsPaymentEntity(Classify(req.body)) && req.body.paymentEntityId.None? ==>
              r == Sent(400, PlainText("Webhook Error: " + faultMessage(MissingPaymentEntity)))
    ensures r.status == 200 <==>
              && env.webhookSecret.Some?
              && req.signature == Some(hmac(env.webhookSecret.value, serialize(req.body)))
              && (ReadsPaymentEntity(Classify(req.body)) ==> req.body.paymentEntityId.Some?)
    ensures r.status == 200 ==> r.body == WebhookReceived(true)
  {
    if env.webhookSecret.None? then
      Sent(400, PlainText("Webhook Error: " + faultMessage(MissingSecret)))
    else if req.signature != Some(hmac(env.webhookSecret.value, serialize(req.body))) then
      Sent(400, PlainText("Webhook Error: " + InvalidWebhookSignature))
    else if ReadsPaymentEntity(Classify(req.body)) && req.body.paymentEntityId.None? then
      Sent(400, PlainText("Webhook Error: " + faultMessage(MissingPaymentEntity)))
    else
      Sent(200, WebhookReceived(true))
  }

  /** A correctly signed event of a kind the switch does not name is still acknowledged. */
  lemma UnknownEventAcknowledged(req: WebhookRequest, env: Env, hmac: Hmac, serialize: WebhookEvent -> string,
                                 faultMessage: Fault -> string)
    requires env.webhookSecret.Some?
    requires req.signature == Some(hmac(env.webhookSecret.value, serialize(req.body)))
    requires req.body.event != "payment.captured" && req.body.event != "payment.failed"
    ensures HandleWebhook(req, env, hmac, serialize, faultMessage) == Sent(200, WebhookReceived(true))
  {
  }
}
