/** The payment gateway's webhook (src/app/api/cashfree/webhook/route.ts):
    the signature check, then the two events that write an order's payment
    status. The HMAC-SHA256 digest in base64 is the parameter `sign`, and
    JSON.parse of the body is given as its result. */
module Webhook {
  import opened Wrappers
  import opened Schema

  // -------------------------------------------------------------- signature

  /** The header value, or "" when the header is missing. */
  function HeaderOrEmpty(h: Option<string>): string
  {
    if h.Some? then h.value else ""
  }

  /** verifyWebhookSignature: an unset or empty secret rejects every request;
      otherwise the header must equal the signature of timestamp ++ body. */
  function VerifySignature(secret: Option<string>, sign: (string, string) -> string,
                           rawBody: string, signature: string, timestamp: string): (ok: bool)
    ensures ok ==> secret.Some? && secret.value != ""
    ensures secret.Some? && secret.value != "" ==> (ok <==> sign(secret.value, timestamp + rawBody) == signature)
  {
    if secret.None? || secret.value == "" then false
    else sign(secret.value, timestamp + rawBody) == signature
  }

  /** A sender holding the secret is accepted: its signature of the same
      timestamp and body verifies. */
  lemma SignedRequestVerifies(secret: string, sign: (string, string) -> string, rawBody: string, timestamp: string)
    requires secret != ""
    ensures VerifySignature(Some(secret), sign, rawBody, sign(secret, timestamp + rawBody), timestamp)
  {
  }

  /** Without a secret nothing verifies, whatever the signature. */
  lemma NoSecretRejectsAll(sign: (string, string) -> string, rawBody: string, signature: string, timestamp: string)
    ensures !VerifySignature(None, sign, rawBody, signature, timestamp)
    ensures !VerifySignature(Some(""), sign, rawBody, signature, timestamp)
  {
  }

  // ------------------------------------------------------ payment transitions

  /** A field of a JSON answer: missing (undefined), null, or a string. */
  datatype JsonField = Absent | JsonNull | Given(text: string)

  /** The payment id column after Prisma writes `paymentId: field`: an
      undefined field writes nothing, null clears the column. */
  function WrittenPaymentId(current: Option<string>, field: JsonField): Option<string>
  {
    match field
    case Absent => current
    case JsonNull => None
    case Given(id) => Some(id)
  }

  /** The order after a confirmed payment: PAID, with the payment id column
      written from the answer's field. */
  function MarkPaid(o: Order, paymentId: JsonField): (r: Order)
    ensures r.paymentStatus == PAID
    ensures paymentId.Absent? ==> r.paymentId == o.paymentId
    ensures paymentId.JsonNull? ==> r.paymentId.None?
    ensures paymentId.Given? ==> r.paymentId == Some(paymentId.text)
    ensures r.(paymentStatus := o.paymentStatus, paymentId := o.paymentId) == o
  {
    o.(paymentStatus := PAID, paymentId := WrittenPaymentId(o.paymentId, paymentId))
  }

  /** The order after a failed payment, whatever its status before. */
  function MarkFailed(o: Order): (r: Order)
    ensures r.paymentStatus == FAILED && r.(paymentStatus := o.paymentStatus) == o
  {
    o.(paymentStatus := FAILED)
  }

  /** Marking paid twice with one payment id is marking it once. */
  lemma MarkPaidIdempotent(o: Order, paymentId: JsonField)
    ensures MarkPaid(MarkPaid(o, paymentId), paymentId) == MarkPaid(o, paymentId)
  {
  }

  // ---------------------------------------------------------------- events

  const SUCCESS_EVENT := "PAYMENT_SUCCESS_WEBHOOK"
  const FAILED_EVENT := "PAYMENT_FAILED_WEBHOOK"

  /** data.payment of an event (None fields are absent from the JSON). */
  datatype PaymentData = PaymentData(orderId: Option<string>, paymentStatus: Option<string>, cfPaymentId: JsonField)

  /** The parsed body: its type and data.payment (None when data or
      data.payment is missing). */
  datatype Payload = Payload(eventType: Option<string>, payment: Option<PaymentData>)

  /** JSON.parse of the raw body followed by `const { type, data } = …`:
      a parse failure or JSON null, whose destructuring throws, is
      Unparsable; any other value is Parsed, and a number, a string or an
      array gives Parsed(Payload(None, None)). */
  datatype Body = Unparsable | Parsed(payload: Payload)

  /** prisma.order.update on one id: throws (None) when the id is absent or
      names no order; otherwise that one row is rewritten and every other
      row stays. */
  function UpdateOrder(orders: map<string, Order>, id: Option<string>, f: Order -> Order): (r: Option<map<string, Order>>)
    ensures r.Some? <==> id.Some? && id.value in orders
    ensures r.Some? ==> r.value.Keys == orders.Keys && r.value[id.value] == f(orders[id.value])
    ensures r.Some? ==> forall k :: k in orders && k != id.value ==> r.value[k] == orders[k]
  {
    if id.Some? && id.value in orders then Some(orders[id.value := f(orders[id.value])]) else None
  }

  /** The orders after an event, or None when handling it throws. */
  function ApplyEvent(orders: map<string, Order>, p: Payload): Option<map<string, Order>>
  {
    if p.eventType == Some(SUCCESS_EVENT) then
      if p.payment.None? then None
      else if p.payment.value.paymentStatus != Some("SUCCESS") then Some(orders)
      else UpdateOrder(orders, p.payment.value.orderId, o => MarkPaid(o, p.payment.value.cfPaymentId))
    else if p.eventType == Some(FAILED_EVENT) then
      if p.payment.None? then None
      else UpdateOrder(orders, p.payment.value.orderId, MarkFailed)
    else Some(orders)
  }

  /** What each event does to the orders. */
  lemma ApplyEventCases(orders: map<string, Order>, p: Payload)
    ensures p.eventType != Some(SUCCESS_EVENT) && p.eventType != Some(FAILED_EVENT) ==> ApplyEvent(orders, p) == Some(orders)
    ensures p.eventType == Some(SUCCESS_EVENT) && p.payment.Some? && p.payment.value.paymentStatus != Some("SUCCESS")
            ==> ApplyEvent(orders, p) == Some(orders)
    ensures p.eventType == Some(SUCCESS_EVENT) && p.payment.Some? && p.payment.value.paymentStatus == Some("SUCCESS")
            && p.payment.value.orderId.Some? && p.payment.value.orderId.value in orders ==>
      var id := p.payment.value.orderId.value;
      ApplyEvent(orders, p) == Some(orders[id := MarkPaid(orders[id], p.payment.value.cfPaymentId)])
    ensures p.eventType == Some(FAILED_EVENT) && p.payment.Some?
            && p.payment.value.orderId.Some? && p.payment.value.orderId.value in orders ==>
      var id := p.payment.value.orderId.value;
      ApplyEvent(orders, p) == Some(orders[id := MarkFailed(orders[id])])
    ensures (p.eventType == Some(SUCCESS_EVENT) || p.eventType == Some(FAILED_EVENT)) && p.payment.None?
            ==> ApplyEvent(orders, p).None?
  {
  }

  /** An event that applies writes at most one order, and only its payment
      status and payment id; every key stays. */
  lemma ApplyEventTouchesOneOrder(orders: map<string, Order>, p: Payload)
    requires ApplyEvent(orders, p).Some?
    ensures var r := ApplyEvent(orders, p).value;
      && r.Keys == orders.Keys
      && forall id :: id in r ==> r[id].(paymentStatus := orders[id].paymentStatus, paymentId := orders[id].paymentId) == orders[id]
  {
  }

  /** Delivering the same event twice leaves the state of one delivery. */
  lemma ReplayIsIdempotent(orders: map<string, Order>, p: Payload)
    requires ApplyEvent(orders, p).Some?
    ensures ApplyEvent(ApplyEvent(orders, p).value, p) == ApplyEvent(orders, p)
  {
    if p.eventType == Some(SUCCESS_EVENT) && p.payment.value.paymentStatus == Some("SUCCESS") {
      var id := p.payment.value.orderId.value;
      var once := orders[id := MarkPaid(orders[id], p.payment.value.cfPaymentId)];
      ApplyEventCases(orders, p);
      ApplyEventCases(once, p);
      MarkPaidIdempotent(orders[id], p.payment.value.cfPaymentId);
      assert once[id := MarkPaid(once[id], p.payment.value.cfPaymentId)] == once;
    } else if p.eventType == Some(FAILED_EVENT) {
      var id := p.payment.value.orderId.value;
      var once := orders[id := MarkFailed(orders[id])];
      ApplyEventCases(orders, p);
      ApplyEventCases(once, p);
      assert once[id := MarkFailed(once[id])] == once;
    }
  }

  /** PAID is not final: a failure event after a success event leaves the
      order FAILED (last write wins). */
  lemma PaidIsNotSticky(orders: map<string, Order>, id: string, paymentId: string)
    requires id in orders
    ensures var paid := ApplyEvent(orders, Payload(Some(SUCCESS_EVENT), Some(PaymentData(Some(id), Some("SUCCESS"), Given(paymentId)))));
      && paid.Some? && paid.value[id].paymentStatus == PAID
      && var after := ApplyEvent(paid.value, Payload(Some(FAILED_EVENT), Some(PaymentData(Some(id), None, Absent))));
         after.Some? && after.value[id].paymentStatus == FAILED && after.value[id].paymentId == Some(paymentId)
  {
  }

  // -------------------------------------------------------------- handler

  /** The JSON response and its HTTP status. */
  datatype Response = Response(status: int, error: Option<string>)

  const INVALID_SIGNATURE_MSG := "Invalid signature"
  const PROCESSING_FAILED_MSG := "Webhook processing failed"

  /** A delivery: the raw body, the two headers, and the body parsed. */
  datatype Delivery = Delivery(rawBody: string, signature: Option<string>, timestamp: Option<string>, body: Body)

  predicate Authentic(secret: Option<string>, sign: (string, string) -> string, d: Delivery)
  {
    VerifySignature(secret, sign, d.rawBody, HeaderOrEmpty(d.signature), HeaderOrEmpty(d.timestamp))
  }

  /** POST: 401 before the body is read when the signature fails, 500 when
      handling throws, otherwise 200 after the event is applied. */
  method HandleWebhook(db: Store, secret: Option<string>, sign: (string, string) -> string, d: Delivery)
    returns (resp: Response)
    requires db.Valid()
    modifies db
    ensures db.Valid()
    ensures db.users == old(db.users) && db.products == old(db.products)
    ensures db.coupons == old(db.coupons) && db.orderItems == old(db.orderItems)
    ensures !Authentic(secret, sign, d) ==> resp == Response(401, Some(INVALID_SIGNATURE_MSG)) && unchanged(db)
    ensures Authentic(secret, sign, d) && (d.body.Unparsable? || ApplyEvent(old(db.orders), d.body.payload).None?) ==>
      resp == Response(500, Some(PROCESSING_FAILED_MSG)) && unchanged(db)
    ensures Authentic(secret, sign, d) && d.body.Parsed? && ApplyEvent(old(db.orders), d.body.payload).Some? ==>
      resp == Response(200, None) && db.orders == ApplyEvent(old(db.orders), d.body.payload).value
  {
    var signature := HeaderOrEmpty(d.signature);
    var timestamp := HeaderOrEmpty(d.timestamp);
    if !VerifySignature(secret, sign, d.rawBody, signature, timestamp) {
      return Response(401, Some(INVALID_SIGNATURE_MSG));
    }
    if d.body.Unparsable? {
      return Response(500, Some(PROCESSING_FAILED_MSG));
    }
    var p := d.body.payload;
    if p.eventType == Some(SUCCESS_EVENT) {
      if p.payment.None? {
        return Response(500, Some(PROCESSING_FAILED_MSG));
      }
      var payment := p.payment.value;
      if payment.paymentStatus == Some("SUCCESS") {
        if payment.orderId.None? || payment.orderId.value !in db.orders {
          return Response(500, Some(PROCESSING_FAILED_MSG));
        }
        var id := payment.orderId.value;
        var o := MarkPaid(db.orders[id], payment.cfPaymentId);
        ReplaceOrderKeepsConsistent(db.users, db.products, db.coupons, db.orders, db.orderItems, id, o);
        db.orders := db.orders[id := o];
      }
    }
    if p.eventType == Some(FAILED_EVENT) {
      if p.payment.None? || p.payment.value.orderId.None? || p.payment.value.orderId.value !in db.orders {
        return Response(500, Some(PROCESSING_FAILED_MSG));
      }
      var id := p.payment.value.orderId.value;
      var o := MarkFailed(db.orders[id]);
      ReplaceOrderKeepsConsistent(db.users, db.products, db.coupons, db.orders, db.orderItems, id, o);
      db.orders := db.orders[id := o];
    }
    return Response(200, None);
  }
}
