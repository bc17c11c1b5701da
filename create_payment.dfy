/** The payment-initiation handler: it checks the method, the request fields and the
    configuration, builds the transaction id and the signed payload, makes one call to the
    provider and turns the provider's reply into a response. */
module CreatePayment {
  import opened Wrappers
  import opened Text
  import opened Gateway

  /** The JSON body of the request; `None` is a field that is absent. */
  datatype PaymentRequest = PaymentRequest(
    orderId: Option<string>,
    amount: Option<int>,
    userPhone: Option<string>,
    userEmail: Option<string>)

  /** An incoming request; a body of `None` is one that cannot be destructured. */
  datatype HttpRequest = HttpRequest(verb: string, body: Option<PaymentRequest>)

  /** The payment request sent to the provider, before it is serialised. */
  datatype PaymentPayload = PaymentPayload(
    merchantId: string,
    merchantTransactionId: string,
    merchantUserId: string,
    amount: int,
    redirectUrl: string,
    redirectMode: string,
    callbackUrl: string,
    mobileNumber: string,
    instrumentType: string)

  /** The one outbound call: where it goes, its `X-VERIFY` header and its `request` field. */
  datatype PayCall = PayCall(url: string, xVerify: string, request: string)

  /** The parts of the provider's reply the handler looks at. */
  datatype PayReply = PayReply(success: bool, redirectUrl: Option<string>, message: Option<string>)

  const DefaultAppUrl: string := "http://localhost:5173"
  const MissingFieldsMessage: string := "Missing required fields: order_id, amount, user_phone"

  /** `TXN_<order id>_<milliseconds>`. */
  function TransactionId(orderId: string, millis: nat): (t: string)
    ensures |t| == 4 + |orderId| + 1 + |Decimal(millis)|
    ensures t[..4] == "TXN_" && t[4..4 + |orderId|] == orderId
    ensures t[4 + |orderId|] == '_' && t[4 + |orderId| + 1..] == Decimal(millis)
  {
    "TXN_" + orderId + "_" + Decimal(millis)
  }

  /** `USER_<order id>`. */
  function MerchantUserId(orderId: string): (u: string)
    ensures |u| == 5 + |orderId| && u[..5] == "USER_" && u[5..] == orderId
  {
    "USER_" + orderId
  }

  /** The application URL, with the local development server when none is configured. */
  function AppUrl(env: Env): (url: string)
    ensures Truthy(env.appUrl) ==> url == env.appUrl.value
    ensures !Truthy(env.appUrl) ==> url == DefaultAppUrl
  {
    if Truthy(env.appUrl) then env.appUrl.value else DefaultAppUrl
  }

  /** The payload for an order: the buyer comes back to the success page for that order, and
      the provider reports to the webhook. */
  function Payload(merchantId: string, env: Env, orderId: string, amount: int, phone: string,
                   millis: nat): (p: PaymentPayload)
    ensures p.merchantTransactionId == TransactionId(orderId, millis)
    ensures p.merchantUserId == MerchantUserId(orderId)
    ensures p.redirectUrl == AppUrl(env) + "/payment/success?order_id=" + orderId
    ensures p.callbackUrl == AppUrl(env) + "/api/phonepe/webhook"
    ensures p.merchantId == merchantId && p.amount == amount && p.mobileNumber == phone
    ensures p.redirectMode == "POST" && p.instrumentType == "PAY_PAGE"
  {
    var app := AppUrl(env);
    PaymentPayload(merchantId, TransactionId(orderId, millis), MerchantUserId(orderId), amount,
                   app + "/payment/success?order_id=" + orderId, "POST",
                   app + "/api/phonepe/webhook", phone, "PAY_PAGE")
  }

  /** The answer to the provider's reply: success exactly when the provider says so and gives
      a redirect URL; otherwise the provider's message, or a fixed one when it has none. */
  function Classify(reply: PayReply, transactionId: string): (res: Response)
    ensures res.code == 200 <==> reply.success && Truthy(reply.redirectUrl)
    ensures res.code == 200 ==>
      res.body == PaymentInitiated(reply.redirectUrl.value, transactionId,
                                   "Payment initiated successfully")
    ensures res.code != 200 ==> res.code == 400 && res.body.StatusError?
    ensures res.code != 200 && Truthy(reply.message) ==> res.body.message == reply.message.value
    ensures res.code != 200 && !Truthy(reply.message) ==>
      res.body.message == "Payment initiation failed"
  {
    if reply.success && Truthy(reply.redirectUrl) then
      Response(200, PaymentInitiated(reply.redirectUrl.value, transactionId,
                                     "Payment initiated successfully"))
    else
      Response(400, StatusError(if Truthy(reply.message) then reply.message.value
                                else "Payment initiation failed"))
  }

  /** The request fields are all present: an order id, a non-zero amount and a phone. A field
      fails the check when it is missing, an empty string or a zero amount. */
  function HasRequiredFields(body: PaymentRequest): (ok: bool)
    ensures !ok <==>
      || body.orderId.None? || body.orderId.value == ""
      || body.amount.None? || body.amount.value == 0
      || body.userPhone.None? || body.userPhone.value == ""
  {
    Truthy(body.orderId) && body.amount.Some? && body.amount.value != 0 && Truthy(body.userPhone)
  }

  /** The handler. `encode` stands for JSON serialisation followed by base64, `sha256Hex`
      for the digest, `provider` for the provider's answer to the call (`None` when the call
      or the parsing of its answer fails), and `millis` for the clock. */
  method HandleCreatePayment(req: HttpRequest, env: Env, millis: nat,
                             encode: PaymentPayload -> string, sha256Hex: string -> string,
                             provider: PayCall -> Option<PayReply>)
    returns (res: Response, call: Option<PayCall>)
    ensures req.verb != "POST" ==> res == MethodNotAllowed && call.None?
    ensures req.verb == "POST" && req.body.None? ==>
      res == Response(500, StatusError("Internal server error")) && call.None?
    ensures req.verb == "POST" && req.body.Some? && !HasRequiredFields(req.body.value) ==>
      res == Response(400, StatusError(MissingFieldsMessage)) && call.None?
    ensures (req.verb == "POST" && req.body.Some? && HasRequiredFields(req.body.value) &&
             !(Truthy(env.merchantId) && Truthy(env.secret))) ==>
      res == Response(500, StatusError("Payment gateway not configured")) && call.None?
    ensures call.Some? <==>
      req.verb == "POST" && req.body.Some? && HasRequiredFields(req.body.value) &&
      Truthy(env.merchantId) && Truthy(env.secret)
    ensures call.Some? ==>
      var b := req.body.value;
      var payload := Payload(env.merchantId.value, env, b.orderId.value, b.amount.value,
                             b.userPhone.value, millis);
      var encoded := encode(payload);
      && call.value == PayCall(BaseUrl(env.nodeEnv) + PayPath,
                               Checksum(sha256Hex, encoded + PayPath + env.secret.value), encoded)
      && (provider(call.value).None? ==>
            res == Response(500, StatusError("Internal server error")))
      && (provider(call.value).Some? ==>
            res == Classify(provider(call.value).value, TransactionId(b.orderId.value, millis)))
  {
    call := None;
    if req.verb != "POST" {
      return MethodNotAllowed, call;
    }
    if req.body.None? {
      return Response(500, StatusError("Internal server error")), call;
    }
    var body := req.body.value;
    if !HasRequiredFields(body) {
      return Response(400, StatusError(MissingFieldsMessage)), call;
    }
    var baseUrl := BaseUrl(env.nodeEnv);
    if !Truthy(env.merchantId) || !Truthy(env.secret) {
      return Response(500, StatusError("Payment gateway not configured")), call;
    }
    var transactionId := TransactionId(body.orderId.value, millis);
    var payload := Payload(env.merchantId.value, env, body.orderId.value, body.amount.value,
                           body.userPhone.value, millis);
    var encoded := encode(payload);
    var checksum := Checksum(sha256Hex, encoded + PayPath + env.secret.value);
    var outbound := PayCall(baseUrl + PayPath, checksum, encoded);
    call := Some(outbound);
    var reply := provider(outbound);
    if reply.None? {
      return Response(500, StatusError("Internal server error")), call;
    }
    res := Classify(reply.value, transactionId);
  }
}
