/** The payment-status handler: it checks the method, the transaction id and the
    configuration, signs the status path, makes one call to the provider and passes the
    provider's answer back unchanged. */
module VerifyPayment {
  import opened Wrappers
  import opened Gateway

  /** An incoming request: its method and the `transaction_id` query parameter. */
  datatype StatusRequest = StatusRequest(verb: string, transactionId: Option<string>)

  /** The one outbound call: its URL and its `X-VERIFY` and `X-MERCHANT-ID` headers. */
  datatype StatusCall = StatusCall(url: string, xVerify: string, merchantIdHeader: string)

  /** `/pg/v1/status/<merchant id>/<transaction id>`. */
  function StatusPathFor(merchantId: string, transactionId: string): (path: string)
    ensures |path| >= |StatusPath| && path[..|StatusPath|] == StatusPath
    ensures path[|StatusPath|..] == "/" + merchantId + "/" + transactionId
  {
    StatusPath + "/" + merchantId + "/" + transactionId
  }

  /** The call for a transaction: the URL is the base URL followed by exactly the path that is
      signed, and the signed string is that path followed by the secret. */
  function Call(env: Env, sha256Hex: string -> string, merchantId: string, secret: string,
                transactionId: string): (c: StatusCall)
    ensures var path := StatusPathFor(merchantId, transactionId);
      && c.url == BaseUrl(env.nodeEnv) + path
      && c.xVerify == Checksum(sha256Hex, path + secret)
      && c.merchantIdHeader == merchantId
  {
    var path := StatusPathFor(merchantId, transactionId);
    StatusCall(BaseUrl(env.nodeEnv) + path, Checksum(sha256Hex, path + secret), merchantId)
  }

  /** The handler. `provider` is the provider's answer to the call, as received (`None` when
      the call or the parsing of its answer fails). */
  method HandleVerify(req: StatusRequest, env: Env, sha256Hex: string -> string,
                      provider: StatusCall -> Option<string>)
    returns (res: Response, call: Option<StatusCall>)
    ensures req.verb != "GET" ==> res == MethodNotAllowed && call.None?
    ensures req.verb == "GET" && !Truthy(req.transactionId) ==>
      res == Response(400, StatusError("Transaction ID is required")) && call.None?
    ensures (req.verb == "GET" && Truthy(req.transactionId) &&
             !(Truthy(env.merchantId) && Truthy(env.secret))) ==>
      res == Response(500, StatusError("Payment gateway not configured")) && call.None?
    ensures call.Some? <==>
      req.verb == "GET" && Truthy(req.transactionId) && Truthy(env.merchantId) &&
      Truthy(env.secret)
    ensures call.Some? ==>
      && call.value == Call(env, sha256Hex, env.merchantId.value, env.secret.value,
                            req.transactionId.value)
      && (provider(call.value).Some? ==>
            res == Response(200, StatusReport(provider(call.value).value)))
      && (provider(call.value).None? ==>
            res == Response(500, StatusError("Internal server error")))
  {
    call := None;
    if req.verb != "GET" {
      return MethodNotAllowed, call;
    }
    if !Truthy(req.transactionId) {
      return Response(400, StatusError("Transaction ID is required")), call;
    }
    if !Truthy(env.merchantId) || !Truthy(env.secret) {
      return Response(500, StatusError("Payment gateway not configured")), call;
    }
    var outbound := Call(env, sha256Hex, env.merchantId.value, env.secret.value,
                         req.transactionId.value);
    call := Some(outbound);
    var data := provider(outbound);
    if data.None? {
      return Response(500, StatusError("Internal server error")), call;
    }
    res := Response(200, StatusReport(data.value));
  }
}
