/**
 * src/app/api/wallet/verify-payment/route.js: the third settlement channel. The client page
 * polls it; it asks the gateway's payment-information endpoint about the row's track id and
 * settles the row from the answer.
 */
module VerifyPayment {
  import opened Wrappers
  import opened JsValues
  import opened TransactionModel
  import opened Store

  /** What the call to the payment-information endpoint gave: an exception, a non-2xx reply, or `data.status`. */
  datatype StatusQuery = QueryThrew | QueryNotOk | QueryOk(status: Option<string>)

  datatype VerifyReply =
    | MissingOrderId
    | PaymentNotFound
    | AlreadyVerified(balance: int)
    | StillPending
    | NotPaid(cancelled: bool)
    | GatewayCheckFailed
    | VerifiedPaid(balance: int)
    | OwnerNotFound
    | Unsettled(status: PaymentStatus)
    | CheckError

  function VerifyStatusCode(r: VerifyReply): int
  {
    match r
    case MissingOrderId => 400
    case PaymentNotFound => 404
    case OwnerNotFound => 404
    case CheckError => 500
    case _ => 200
  }

  /** The `success` flag of the reply. */
  predicate Succeeded(r: VerifyReply)
  {
    r.AlreadyVerified? || r.VerifiedPaid?
  }

  /** The `pending` flag of the reply, which keeps the client polling. */
  predicate PendingFlag(r: VerifyReply)
  {
    r.StillPending? || r == Unsettled(Pending)
  }

  /**
   * The row `verify` works on: the first `oxapay` row with the order id as payment id, or
   * failing that the first row of any gateway with it.
   */
  function VerifyTarget(rows: seq<Transaction>, orderId: Option<string>): (r: Option<nat>)
    ensures r.Some? ==> r.value < |rows| && rows[r.value].paymentId == orderId && Truthy(orderId)
    ensures r.None? && Truthy(orderId) ==> forall k :: 0 <= k < |rows| ==> rows[k].paymentId != orderId
    ensures Truthy(orderId) && FindOne(rows, orderId.value, true).Some? ==> r == FindOne(rows, orderId.value, true)
    ensures Truthy(orderId) && FindOne(rows, orderId.value, true).None? ==> r == FindOne(rows, orderId.value, false)
  {
    if !Truthy(orderId) then None
    else match FindOne(rows, orderId.value, true)
      case Some(i) => Some(i)
      case None => FindOne(rows, orderId.value, false)
  }

  /**
   * The gateway's `data.status`: "paid" credits, "expired" and "cancelled" cancel, "failed"
   * fails, and anything else (an unsettled invoice, an absent field) leaves the row alone.
   */
  function GatewayVerdict(status: Option<string>): (v: Option<Verdict>)
    ensures v == Some(Paid) <==> status == Some("paid")
    ensures v == Some(Cancel) <==> status == Some("expired") || status == Some("cancelled")
    ensures v == Some(Fail) <==> status == Some("failed")
    ensures v.None? ==> status != Some("paid") && status != Some("failed")
  {
    if status == Some("paid") then Some(Paid)
    else if status == Some("expired") || status == Some("cancelled") then Some(Cancel)
    else if status == Some("failed") then Some(Fail)
    else None
  }

  /**
   * `GET`: a completed row reports success with the owner's balance and is never touched
   * again. A row without any track id, or whose gateway check does not answer, changes
   * nothing. On a gateway answer the row is credited (if its owner exists), cancelled or
   * failed; only a credit changes a balance, and the credit stores the track id used.
   */
  function Verify(s: Store, orderId: Option<string>, trackId: Option<string>, query: StatusQuery): (out: (Store, VerifyReply))
    ensures !Truthy(orderId) ==> out == (s, MissingOrderId)
    ensures Truthy(orderId) && VerifyTarget(s.rows, orderId).None? ==> out == (s, PaymentNotFound)
    ensures !out.1.VerifiedPaid? ==> out.0.users == s.users
    ensures VerifyTarget(s.rows, orderId).Some? ==>
      var i := VerifyTarget(s.rows, orderId).value;
      var row := s.rows[i];
      var actual := Or(trackId, row.gatewayTransactionId);
      && (row.paymentStatus == Completed ==>
            out == (s, AlreadyVerified(if row.userId in s.users then s.users[row.userId].balance else 0)))
      && (row.paymentStatus != Completed && (!Truthy(actual) || !query.QueryOk?) ==>
            out.0 == s && (PendingFlag(out.1) <==> row.paymentStatus == Pending))
      && (row.paymentStatus == Pending && (!Truthy(actual) || !query.QueryOk?) ==> out.1 == StillPending)
      && (row.paymentStatus != Completed && row.paymentStatus != Pending && (!Truthy(actual) || !query.QueryOk?) ==>
            out.1 == (if !Truthy(actual) then NotPaid(row.paymentStatus == Cancelled)
                      else if query.QueryThrew? then CheckError else GatewayCheckFailed))
      && (row.paymentStatus != Completed && Truthy(actual) && query.QueryOk? ==>
            var v := GatewayVerdict(query.status);
            && (v == Some(Paid) && row.userId in s.users ==>
                  CreditedRow(s, out.0, i, actual) && out.1 == VerifiedPaid(out.0.users[row.userId].balance))
            && (v == Some(Paid) && row.userId !in s.users ==> out == (s, OwnerNotFound))
            && (v == Some(Cancel) ==> SettledRow(s, out.0, i, Cancelled, row.gatewayTransactionId) && out.1 == Unsettled(Cancelled))
            && (v == Some(Fail) ==> SettledRow(s, out.0, i, Failed, row.gatewayTransactionId) && out.1 == Unsettled(Failed))
            && (v.None? ==> out == (s, Unsettled(row.paymentStatus))))
  {
    if !Truthy(orderId) then (s, MissingOrderId)
    else match VerifyTarget(s.rows, orderId)
      case None => (s, PaymentNotFound)
      case Some(i) =>
        var row := s.rows[i];
        var pending := row.paymentStatus == Pending;
        if row.paymentStatus == Completed then
          (s, AlreadyVerified(if row.userId in s.users then s.users[row.userId].balance else 0))
        else
          var actual := Or(trackId, row.gatewayTransactionId);
          if !Truthy(actual) then (s, if pending then StillPending else NotPaid(row.paymentStatus == Cancelled))
          else match query
            case QueryThrew => (s, if pending then StillPending else CheckError)
            case QueryNotOk => (s, if pending then StillPending else GatewayCheckFailed)
            case QueryOk(status) =>
              match GatewayVerdict(status)
              case None => (s, Unsettled(row.paymentStatus))
              case Some(Paid) =>
                if row.userId !in s.users then (s, OwnerNotFound)
                else
                  var t := Settle(s, i, Paid, actual);
                  (t, VerifiedPaid(t.users[row.userId].balance))
              case Some(Cancel) => (Settle(s, i, Cancel, row.gatewayTransactionId), Unsettled(Cancelled))
              case Some(Fail) => (Settle(s, i, Fail, row.gatewayTransactionId), Unsettled(Failed))
  }
}
