/** The payment-notification handler: it checks the method, the configuration and the
    signature, decodes the notification, recovers the order id from the merchant transaction
    id, maps the payment state to an order status and overwrites that order's payment fields. */
module Webhook {
  import opened Wrappers
  import opened Text
  import opened Types
  import opened Gateway
  import CreatePayment

  /** The notification body: its `response` field, when there is one. */
  datatype WebhookBody = WebhookBody(response: Option<string>)

  /** An incoming request: its method, its `x-verify` header and its body (`None` for a
      request without a body, where reading `response` fails). */
  datatype WebhookRequest = WebhookRequest(verb: string, xVerify: Option<string>,
                                           body: Option<WebhookBody>)

  /** The `data` part of a decoded notification. `merchantTransactionId` must be there (the
      handler calls `match` on it); each other field is `None` when the notification leaves it
      out, and the handler then carries `undefined` on. */
  datatype Notification = Notification(
    merchantTransactionId: string,
    transactionId: Option<string>,
    amount: Option<int>,
    state: Option<string>,
    responseCode: Option<string>)

  /** The orders table, by order id. */
  type Store = map<string, Order>

  // ----- Recovering the order id: `/TXN_(.+)_\d+/` ---------------------------------------

  /** The first line terminator at or after `b`, or the end of the string: the `.` of the
      pattern matches only the characters before it. */
  function LineEnd(s: string, b: nat): (e: nat)
    requires b <= |s|
    ensures b <= e <= |s|
    ensures e < |s| ==> IsLineTerminator(s[e])
    ensures forall i :: b <= i < e ==> !IsLineTerminator(s[i])
    decreases |s| - b
  {
    if b == |s| || IsLineTerminator(s[b]) then b else LineEnd(s, b + 1)
  }

  /** With the capture starting at `b`, `j` is a place where it can end: the capture
      `s[b..j]` is non-empty and within the line, and `_` followed by a digit comes next. */
  predicate IsCaptureEnd(s: string, b: nat, j: nat)
    requires b <= |s|
  {
    b < j < LineEnd(s, b) && j + 1 < |s| && s[j] == '_' && IsDigit(s[j + 1])
  }

  /** Some place can end the capture started at `b`. */
  ghost predicate HasCaptureEnd(s: string, b: nat)
    requires b <= |s|
  {
    exists j :: IsCaptureEnd(s, b, j)
  }

  /** The greedy choice among the capture ends below `hi`: the last one. */
  function LastCaptureEnd(s: string, b: nat, hi: nat): (r: Option<nat>)
    requires b <= |s|
    ensures r.Some? ==> r.value < hi && IsCaptureEnd(s, b, r.value)
    ensures r.Some? ==> forall j :: r.value < j < hi ==> !IsCaptureEnd(s, b, j)
    ensures r.None? ==> forall j: nat :: j < hi ==> !IsCaptureEnd(s, b, j)
  {
    if hi == 0 then None
    else if IsCaptureEnd(s, b, hi - 1) then Some(hi - 1)
    else LastCaptureEnd(s, b, hi - 1)
  }

  /** The capture of a match starting at `p`, if the pattern matches there. */
  function MatchAt(s: string, p: nat): (r: Option<string>)
    requires p <= |s|
    ensures r.Some? ==> p + 4 <= |s| && s[p..p + 4] == "TXN_"
    ensures r.Some? ==> r.value != [] && forall i :: 0 <= i < |r.value| ==>
      !IsLineTerminator(r.value[i])
    ensures r.None? <==>
      !(p + 4 <= |s| && s[p..p + 4] == "TXN_" && HasCaptureEnd(s, p + 4))
  {
    if p + 4 <= |s| && s[p..p + 4] == "TXN_" then
      match LastCaptureEnd(s, p + 4, |s|)
      case Some(j) => Some(s[p + 4..j])
      case None => None
    else None
  }

  /** The leftmost position at or after `p` where the pattern matches. */
  function FirstMatch(s: string, p: nat): (q: Option<nat>)
    requires p <= |s|
    ensures q.Some? ==> p <= q.value <= |s| && MatchAt(s, q.value).Some?
    ensures q.Some? ==> forall q' :: p <= q' < q.value ==> MatchAt(s, q').None?
    ensures q.None? ==> forall q' :: p <= q' <= |s| ==> MatchAt(s, q').None?
    decreases |s| - p
  {
    if MatchAt(s, p).Some? then Some(p)
    else if p == |s| then None
    else FirstMatch(s, p + 1)
  }

  /** `merchantTransactionId.match(/TXN_(.+)_\d+/)?.[1]`: the capture of the leftmost match. */
  function ExtractOrderId(merchantTransactionId: string): (r: Option<string>)
    ensures r.None? <==> forall q :: 0 <= q <= |merchantTransactionId| ==>
      MatchAt(merchantTransactionId, q).None?
    ensures r.Some? ==> r.value != []
    ensures r.Some? ==> forall i :: 0 <= i < |r.value| ==> !IsLineTerminator(r.value[i])
  {
    match FirstMatch(merchantTransactionId, 0)
    case Some(q) => MatchAt(merchantTransactionId, q)
    case None => None
  }

  /** The order id comes back out of the transaction id the payment handler builds, for any
      non-empty id within one line, including ids that themselves contain `_` and digits. */
  lemma TransactionIdRoundTrip(orderId: string, millis: nat)
    requires orderId != []
    requires forall i :: 0 <= i < |orderId| ==> !IsLineTerminator(orderId[i])
    ensures ExtractOrderId(CreatePayment.TransactionId(orderId, millis)) == Some(orderId)
  {
    MatchAtStartIsOrderId(orderId, millis);
  }

  /** The pattern matches at the very start of a built transaction id, and its greedy
      capture is the whole order id. */
  lemma MatchAtStartIsOrderId(orderId: string, millis: nat)
    requires orderId != []
    requires forall i :: 0 <= i < |orderId| ==> !IsLineTerminator(orderId[i])
    ensures MatchAt(CreatePayment.TransactionId(orderId, millis), 0) == Some(orderId)
  {
    var s := CreatePayment.TransactionId(orderId, millis);
    var digits := Decimal(millis);
    var j0 := 4 + |orderId|;
    forall i | 4 <= i < j0 ensures !IsLineTerminator(s[i]) {
      assert s[i] == s[4..j0][i - 4];
    }
    forall i | j0 < i < |s| ensures IsDigit(s[i]) {
      assert s[i] == s[j0 + 1..][i - j0 - 1];
    }
    MatchAtShape(s, |orderId|);
  }

  /** `TXN_`, a non-empty segment within one line, `_`, then only digits: the pattern matches
      at the start, and the greedy capture is the whole segment, since no `_` follows it. */
  lemma MatchAtShape(s: string, n: nat)
    requires 0 < n && 4 + n + 1 < |s|
    requires s[..4] == "TXN_"
    requires forall i :: 4 <= i < 4 + n ==> !IsLineTerminator(s[i])
    requires s[4 + n] == '_'
    requires forall i :: 4 + n < i < |s| ==> IsDigit(s[i])
    ensures MatchAt(s, 0) == Some(s[4..4 + n])
  {
    var j0 := 4 + n;
    assert forall i :: 4 <= i < |s| ==> !IsLineTerminator(s[i]);
    assert LineEnd(s, 4) == |s|;
    assert IsCaptureEnd(s, 4, j0);
    assert forall j :: j0 < j < |s| ==> !IsCaptureEnd(s, 4, j);
    assert LastCaptureEnd(s, 4, |s|) == Some(j0);
    assert s[0..4] == s[..4];
  }

  /** A capture never crosses a line end, so an order id with a line terminator in it never
      comes back, whatever the time stamp. */
  lemma LineBreakIdNotRecovered(orderId: string, millis: nat, k: nat)
    requires k < |orderId| && IsLineTerminator(orderId[k])
    ensures ExtractOrderId(CreatePayment.TransactionId(orderId, millis)) != Some(orderId)
  {
  }

  /** For `a\nb` nothing matches at all: the capture cannot reach the `_` after the break. */
  lemma LineBreakDefeatsMatch()
    ensures ExtractOrderId(CreatePayment.TransactionId("a\nb", 7)) == None
  {
    var s := CreatePayment.TransactionId("a\nb", 7);
    assert s == "TXN_a\nb_7";
    assert LineEnd(s, 4) == 5;
    forall q | 0 < q <= |s| ensures MatchAt(s, q).None? {
      if q + 4 <= |s| {
        assert s[q..q + 4][0] == s[q];
      }
    }
  }

  /** The capture must be non-empty: an empty order id is never recovered, nor any other id,
      whatever the time stamp. */
  lemma EmptyIdNotRecovered(millis: nat)
    ensures ExtractOrderId(CreatePayment.TransactionId("", millis)) == None
  {
    var s := CreatePayment.TransactionId("", millis);
    var digits := Decimal(millis);
    assert forall i :: 5 <= i < |s| ==> s[i] == digits[i - 5];
    forall j: nat ensures !IsCaptureEnd(s, 4, j) {
      if 4 < j < |s| {
        assert IsDigit(s[j]);
      }
    }
    assert MatchAt(s, 0).None?;
    forall q | 0 < q <= |s| ensures MatchAt(s, q).None? {
      if q + 4 <= |s| {
        assert s[q..q + 4][0] == s[q];
        assert s[q] != 'T' by {
          if q >= 5 {
            assert IsDigit(s[q]);
          }
        }
      }
    }
  }

  // ----- Payment state and the order write -----------------------------------------------

  /** The new order status and the payment status the handler stores for a notification; a
      missing state leaves the payment status `undefined` (`None`). */
  function MapStatus(state: Option<string>, responseCode: Option<string>)
    : (r: (OrderStatus, Option<string>))
    ensures r.0 == Paid <==> state == Some("COMPLETED") && responseCode == Some("SUCCESS")
    ensures r.0 == Cancelled <==> state == Some("FAILED")
    ensures r.0 == Pending <==>
      (!(state == Some("COMPLETED") && responseCode == Some("SUCCESS")) && state != Some("FAILED"))
    ensures r.0 == Paid ==> r.1 == Some("SUCCESS")
    ensures r.0 != Paid ==> r.1 == state
  {
    if state == Some("COMPLETED") && responseCode == Some("SUCCESS") then (Paid, Some("SUCCESS"))
    else if state == Some("FAILED") then (Cancelled, Some("FAILED"))
    else (Pending, state)
  }

  /** A column of the update: an `undefined` value is dropped from the update, so the column
      keeps what it held. */
  function Written(value: Option<string>, current: Option<string>): (r: Option<string>)
    ensures value.Some? ==> r == value
    ensures value.None? ==> r == current
  {
    if value.Some? then value else current
  }

  /** The write: the order with the id, if there is one, gets the provider's transaction id and
      the payment status where the notification has them, the order status and the time;
      nothing else changes. */
  function ApplyPayment(store: Store, orderId: string, n: Notification, now: string): (r: Store)
    ensures r.Keys == store.Keys
    ensures forall k :: k in store && k != orderId ==> r[k] == store[k]
    ensures orderId in store ==>
      var (status, paymentStatus) := MapStatus(n.state, n.responseCode);
      var prior := store[orderId];
      && r[orderId].status == status && r[orderId].updated_at == Some(now)
      && (n.transactionId.Some? ==> r[orderId].phonepe_payment_id == n.transactionId)
      && (n.transactionId.None? ==> r[orderId].phonepe_payment_id == prior.phonepe_payment_id)
      && (paymentStatus.Some? ==> r[orderId].phonepe_payment_status == paymentStatus)
      && (paymentStatus.None? ==>
            r[orderId].phonepe_payment_status == prior.phonepe_payment_status)
      && r[orderId].(phonepe_payment_id := prior.phonepe_payment_id,
                     phonepe_payment_status := prior.phonepe_payment_status,
                     status := prior.status, updated_at := prior.updated_at) == prior
  {
    if orderId in store then
      var (status, paymentStatus) := MapStatus(n.state, n.responseCode);
      var o := store[orderId];
      store[orderId := o.(phonepe_payment_id := Written(n.transactionId, o.phonepe_payment_id),
                          phonepe_payment_status := Written(paymentStatus, o.phonepe_payment_status),
                          status := status, updated_at := Some(now))]
    else store
  }

  /** A notification without a state or a transaction id still marks the order Pending and
      stamps it, and leaves the payment columns as they were. */
  lemma BareNotificationOnlyStamps(store: Store, orderId: string, mtid: string, now: string)
    requires orderId in store
    ensures var r := ApplyPayment(store, orderId, Notification(mtid, None, None, None, None), now);
      r[orderId] == store[orderId].(status := Pending, updated_at := Some(now))
  {
  }

  /** A notification delivered twice leaves the store as one delivery does, apart from the
      time of the last write. */
  lemma ReplayIsIdempotent(store: Store, orderId: string, n: Notification, t1: string, t2: string)
    ensures ApplyPayment(ApplyPayment(store, orderId, n, t1), orderId, n, t2) ==
      ApplyPayment(store, orderId, n, t2)
  {
    var once := ApplyPayment(store, orderId, n, t2);
    var twice := ApplyPayment(ApplyPayment(store, orderId, n, t1), orderId, n, t2);
    assert forall k :: k in once ==> twice[k] == once[k];
  }

  /** The signature the provider must send with a notification body: the hex digest of the
      body, the status path and the secret, followed by the salt index. */
  function SignatureValid(sha256Hex: string -> string, secret: string, response: string,
                           received: string): (ok: bool)
    ensures ok <==>
      && |received| >= |SaltIndexSuffix|
      && received[|received| - |SaltIndexSuffix|..] == SaltIndexSuffix
      && received[..|received| - |SaltIndexSuffix|] == sha256Hex(response + StatusPath + secret)
  {
    var n := |received| - |SaltIndexSuffix|;
    assert n >= 0 ==> received == received[..n] + received[n..];
    received == Checksum(sha256Hex, response + StatusPath + secret)
  }

  /** The request passed the method and configuration gates and carries a body. */
  predicate Admitted(req: WebhookRequest, env: Env) {
    req.verb == "POST" && Truthy(env.secret) && Truthy(env.supabaseUrl) &&
    Truthy(env.serviceKey) && req.body.Some?
  }

  /** An admitted request whose header and `response` field are present and whose header is
      the signature of that field. */
  predicate Authentic(req: WebhookRequest, env: Env, sha256Hex: string -> string) {
    && Admitted(req, env)
    && Truthy(req.xVerify) && Truthy(req.body.value.response)
    && SignatureValid(sha256Hex, env.secret.value, req.body.value.response.value,
                      req.xVerify.value)
  }

  /** The handler. `sha256Hex` is the digest, `decode` the base64 and JSON decoding of the
      body (`None` when it fails, or when the result has no `data` or no
      `merchantTransactionId`, where the source throws), `now` the clock, and
      `writeFails` whether the store reports an error for the write. */
  method HandleWebhook(req: WebhookRequest, env: Env, sha256Hex: string -> string,
                       decode: string -> Option<Notification>, store: Store, now: string,
                       writeFails: bool)
    returns (res: Response, store': Store)
    ensures req.verb != "POST" ==> res == MethodNotAllowed
    ensures (req.verb == "POST" &&
             !(Truthy(env.secret) && Truthy(env.supabaseUrl) && Truthy(env.serviceKey))) ==>
      res == Response(500, ErrorBody("Server configuration error"))
    ensures (req.verb == "POST" && Truthy(env.secret) && Truthy(env.supabaseUrl) &&
             Truthy(env.serviceKey) && req.body.None?) ==>
      res == Response(500, ErrorBody("Internal server error"))
    ensures Admitted(req, env) && !(Truthy(req.xVerify) && Truthy(req.body.value.response)) ==>
      res == Response(400, ErrorBody("Missing required headers or body"))
    ensures (Admitted(req, env) && Truthy(req.xVerify) && Truthy(req.body.value.response) &&
             !Authentic(req, env, sha256Hex)) ==>
      res == Response(400, ErrorBody("Invalid signature"))
    ensures Authentic(req, env, sha256Hex) && decode(req.body.value.response.value).None? ==>
      res == Response(500, ErrorBody("Internal server error"))
    ensures Authentic(req, env, sha256Hex) && decode(req.body.value.response.value).Some? ==>
      var n := decode(req.body.value.response.value).value;
      var orderId := ExtractOrderId(n.merchantTransactionId);
      && (orderId.None? ==> res == Response(400, ErrorBody("Invalid transaction ID format")))
      && (orderId.Some? && writeFails ==>
            res == Response(500, ErrorBody("Database update failed")))
      && (orderId.Some? && !writeFails ==>
            res == Response(200, Processed("Webhook processed successfully")) &&
            store' == ApplyPayment(store, orderId.value, n, now))
    ensures res.code != 200 ==> store' == store
    ensures res.code == 200 ==> Authentic(req, env, sha256Hex) && !writeFails
  {
    store' := store;
    if req.verb != "POST" {
      return MethodNotAllowed, store';
    }
    if !Truthy(env.secret) || !Truthy(env.supabaseUrl) || !Truthy(env.serviceKey) {
      return Response(500, ErrorBody("Server configuration error")), store';
    }
    if req.body.None? {
      return Response(500, ErrorBody("Internal server error")), store';
    }
    var received := req.xVerify;
    var response := req.body.value.response;
    if !Truthy(received) || !Truthy(response) {
      return Response(400, ErrorBody("Missing required headers or body")), store';
    }
    if !SignatureValid(sha256Hex, env.secret.value, response.value, received.value) {
      return Response(400, ErrorBody("Invalid signature")), store';
    }
    var decoded := decode(response.value);
    if decoded.None? {
      return Response(500, ErrorBody("Internal server error")), store';
    }
    var n := decoded.value;
    var orderId := ExtractOrderId(n.merchantTransactionId);
    if orderId.None? {
      return Response(400, ErrorBody("Invalid transaction ID format")), store';
    }
    var orderStatus := Pending;
    var paymentStatus := n.state;
    if n.state == Some("COMPLETED") && n.responseCode == Some("SUCCESS") {
      orderStatus := Paid;
      paymentStatus := Some("SUCCESS");
    } else if n.state == Some("FAILED") {
      orderStatus := Cancelled;
      paymentStatus := Some("FAILED");
    }
    assert (orderStatus, paymentStatus) == MapStatus(n.state, n.responseCode);
    if writeFails {
      return Response(500, ErrorBody("Database update failed")), store';
    }
    store' := ApplyPayment(store, orderId.value, n, now);
    res := Response(200, Processed("Webhook processed successfully"));
  }
}
