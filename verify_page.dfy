/** The payment return page (src/app/orders/verify/page.tsx): it asks the
    gateway for the order's payments, writes the outcome of the first one
    onto the order and picks one of three views. PGOrderFetchPayments is
    given as its outcome. */
module VerifyPage {
  import opened Wrappers
  import opened Schema
  import opened Webhook

  /** One payment record of the gateway's answer. */
  datatype PaymentRecord = PaymentRecord(paymentStatus: Option<string>, cfPaymentId: JsonField)

  /** What PGOrderFetchPayments did: answered with its data (None when the
      answer has no data), or threw. */
  datatype FetchOutcome = Fetched(data: Option<seq<PaymentRecord>>) | FetchThrew

  /** The three views the page renders. */
  datatype View = PaymentSuccessful(orderId: string) | PaymentFailed | Verifying

  /** A redirect, or the page with one view. */
  datatype PageOutcome = Redirect(location: string) | Page(view: View)

  const ORDERS_PATH := "/orders"
  const PLACED_PATH := "/orders?placed="
  const PENDING_STATUS := "PENDING"

  /** The status the page settles on: "PENDING" unless the order has a
      session id and the gateway answered with at least one record, and then
      the first record's status, or "PENDING" when that is missing or empty. */
  function ReportedStatus(o: Order, fetch: FetchOutcome): (s: string)
    ensures (o.paymentSessionId.None? || o.paymentSessionId.value == "" || fetch.FetchThrew?) ==> s == PENDING_STATUS
    ensures fetch.Fetched? && (fetch.data.None? || fetch.data.value == []) ==> s == PENDING_STATUS
    ensures HasSession(o) && fetch.Fetched? && fetch.data.Some? && fetch.data.value != [] ==>
      var first := fetch.data.value[0];
      s == if first.paymentStatus.Some? && first.paymentStatus.value != "" then first.paymentStatus.value
           else PENDING_STATUS
    ensures s != ""
  {
    if o.paymentSessionId.None? || o.paymentSessionId.value == "" then PENDING_STATUS
    else match fetch
      case FetchThrew => PENDING_STATUS
      case Fetched(data) =>
        if data.None? || |data.value| == 0 then PENDING_STATUS
        else
          var status := data.value[0].paymentStatus;
          if status.None? || status.value == "" then PENDING_STATUS else status.value
  }

  /** The order has a payment session the gateway can be asked about. */
  predicate HasSession(o: Order)
  {
    o.paymentSessionId.Some? && o.paymentSessionId.value != ""
  }

  /** Only the first record counts: records after it never change the
      status. */
  lemma OnlyFirstRecordCounts(o: Order, first: PaymentRecord, rest: seq<PaymentRecord>, rest': seq<PaymentRecord>)
    ensures ReportedStatus(o, Fetched(Some([first] + rest))) == ReportedStatus(o, Fetched(Some([first] + rest')))
  {
  }

  /** A first record without a status reads as pending. */
  lemma MissingStatusIsPending(o: Order, id: JsonField, rest: seq<PaymentRecord>)
    ensures ReportedStatus(o, Fetched(Some([PaymentRecord(None, id)] + rest))) == PENDING_STATUS
  {
  }

  predicate IsFailure(s: string) { s == "FAILED" || s == "CANCELLED" }

  /** The order row after the page. Only the payment status and the payment
      id can change: SUCCESS makes the order PAID with its payment id column
      written from the first record, FAILED or CANCELLED makes it FAILED,
      and anything else leaves the row as it was. */
  function Reconciled(o: Order, fetch: FetchOutcome): (r: Order)
    ensures r.(paymentStatus := o.paymentStatus, paymentId := o.paymentId) == o
    ensures ReportedStatus(o, fetch) == "SUCCESS" ==>
      r.paymentStatus == PAID && r.paymentId == WrittenPaymentId(o.paymentId, fetch.data.value[0].cfPaymentId)
    ensures IsFailure(ReportedStatus(o, fetch)) ==> r.paymentStatus == FAILED && r.paymentId == o.paymentId
    ensures ReportedStatus(o, fetch) != "SUCCESS" && !IsFailure(ReportedStatus(o, fetch)) ==> r == o
  {
    var s := ReportedStatus(o, fetch);
    if s == "SUCCESS" then MarkPaid(o, fetch.data.value[0].cfPaymentId)
    else if IsFailure(s) then MarkFailed(o)
    else o
  }

  /** The view for a status. */
  function ViewFor(orderId: string, status: string): View
  {
    if status == "SUCCESS" then PaymentSuccessful(orderId)
    else if IsFailure(status) then PaymentFailed
    else Verifying
  }

  /** The three views and the statuses that lead to each, both ways. */
  lemma ViewForStatus(orderId: string, status: string)
    ensures ViewFor(orderId, status).PaymentSuccessful? <==> status == "SUCCESS"
    ensures ViewFor(orderId, status) == PaymentFailed <==> status == "FAILED" || status == "CANCELLED"
    ensures ViewFor(orderId, status) == Verifying <==> status != "SUCCESS" && status != "FAILED" && status != "CANCELLED"
    ensures ViewFor(orderId, status).PaymentSuccessful? ==> ViewFor(orderId, status).orderId == orderId
  {
  }

  /** The view agrees with the row written: success shows only over a PAID
      order and failure only over a FAILED one. */
  lemma ViewMatchesRow(o: Order, fetch: FetchOutcome)
    ensures ViewFor(o.id, ReportedStatus(o, fetch)).PaymentSuccessful? ==> Reconciled(o, fetch).paymentStatus == PAID
    ensures ViewFor(o.id, ReportedStatus(o, fetch)) == PaymentFailed ==> Reconciled(o, fetch).paymentStatus == FAILED
    ensures ViewFor(o.id, ReportedStatus(o, fetch)) == Verifying ==> Reconciled(o, fetch) == o
  {
  }

  /** A gateway SUCCESS on the first record of an order with a session marks
      the order PAID with that record's payment id and shows the success
      view. */
  lemma GatewaySuccessMarksPaid(o: Order, first: PaymentRecord, rest: seq<PaymentRecord>)
    requires HasSession(o) && first.paymentStatus == Some("SUCCESS")
    ensures var fetch := Fetched(Some([first] + rest));
      && Reconciled(o, fetch) == MarkPaid(o, first.cfPaymentId)
      && ViewFor(o.id, ReportedStatus(o, fetch)) == PaymentSuccessful(o.id)
  {
  }

  /** A gateway FAILED or CANCELLED on the first record of an order with a
      session marks the order FAILED and shows the failed view. */
  lemma GatewayFailureMarksFailed(o: Order, first: PaymentRecord, rest: seq<PaymentRecord>)
    requires HasSession(o) && (first.paymentStatus == Some("FAILED") || first.paymentStatus == Some("CANCELLED"))
    ensures var fetch := Fetched(Some([first] + rest));
      && Reconciled(o, fetch) == MarkFailed(o)
      && ViewFor(o.id, ReportedStatus(o, fetch)) == PaymentFailed
  {
  }

  /** VerifyPaymentPage. A missing or empty order_id, or an unknown order,
      redirects to the order list; a cash-on-delivery order redirects to it
      as placed without asking the gateway; otherwise the status is read and
      written as above. */
  method VerifyPayment(db: Store, orderIdParam: Option<string>, fetch: FetchOutcome) returns (out: PageOutcome)
    requires db.Valid()
    modifies db
    ensures db.Valid()
    ensures db.users == old(db.users) && db.products == old(db.products)
    ensures db.coupons == old(db.coupons) && db.orderItems == old(db.orderItems)
    ensures orderIdParam.None? || orderIdParam.value == "" || orderIdParam.value !in old(db.orders) ==>
      out == Redirect(ORDERS_PATH) && unchanged(db)
    ensures orderIdParam.Some? && orderIdParam.value != "" && orderIdParam.value in old(db.orders)
            && old(db.orders)[orderIdParam.value].paymentMethod == COD ==>
      out == Redirect(PLACED_PATH + orderIdParam.value) && unchanged(db)
    ensures orderIdParam.Some? && orderIdParam.value != "" && orderIdParam.value in old(db.orders)
            && old(db.orders)[orderIdParam.value].paymentMethod == ONLINE ==>
      var id := orderIdParam.value;
      var o := old(db.orders)[id];
      && out == Page(ViewFor(id, ReportedStatus(o, fetch)))
      && db.orders == old(db.orders)[id := Reconciled(o, fetch)]
  {
    if orderIdParam.None? || orderIdParam.value == "" {
      return Redirect(ORDERS_PATH);
    }
    var orderId := orderIdParam.value;
    if orderId !in db.orders {
      return Redirect(ORDERS_PATH);
    }
    var order := db.orders[orderId];
    if order.paymentMethod == COD {
      return Redirect(PLACED_PATH + orderId);
    }
    var paymentStatus := PENDING_STATUS;
    var paymentVerified := false;
    if HasSession(order) && fetch.Fetched? {
      var data := fetch.data;
      if data.Some? && |data.value| > 0 {
        var latest := data.value[0];
        paymentStatus := if latest.paymentStatus.Some? && latest.paymentStatus.value != "" then latest.paymentStatus.value
                         else PENDING_STATUS;
        if paymentStatus == "SUCCESS" {
          paymentVerified := true;
          var o := MarkPaid(order, latest.cfPaymentId);
          ReplaceOrderKeepsConsistent(db.users, db.products, db.coupons, db.orders, db.orderItems, orderId, o);
          db.orders := db.orders[orderId := o];
        } else if paymentStatus == "FAILED" || paymentStatus == "CANCELLED" {
          var o := MarkFailed(order);
          ReplaceOrderKeepsConsistent(db.users, db.products, db.coupons, db.orders, db.orderItems, orderId, o);
          db.orders := db.orders[orderId := o];
        }
      }
    }
    assert paymentStatus == ReportedStatus(order, fetch);
    if !(paymentStatus == "SUCCESS" || IsFailure(paymentStatus)) {
      assert db.orders == old(db.orders)[orderId := order];
    }
    if paymentVerified {
      out := Page(PaymentSuccessful(orderId));
    } else if paymentStatus == "FAILED" || paymentStatus == "CANCELLED" {
      out := Page(PaymentFailed);
    } else {
      out := Page(Verifying);
    }
  }
}
