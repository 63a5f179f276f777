/**
 * src/app/api/wallet/payment-callback/route.js: the gateway webhook (`POST`) and the browser
 * return URL (`GET`), two of the three channels that settle a deposit row. Each is a
 * function from the store before the request to the store after it and the response.
 */
module PaymentCallback {
  import opened Wrappers
  import opened JsValues
  import opened TransactionModel
  import opened Store

  /**
   * How both handlers read a status signal: `parseInt` giving 1 or 2, or the exact strings
   * "paid"/"success", is a payment; 3 or "cancelled" is a cancellation; anything else,
   * including an absent signal and "expired", is a failure.
   */
  function Classify(status: BodyValue): (v: Verdict)
    ensures status.Num? ==> (v == Paid <==> status.n == 1 || status.n == 2) && (v == Cancel <==> status.n == 3)
    ensures status.Missing? ==> v == Fail
    ensures status == Text("paid") || status == Text("success") ==> v == Paid
    ensures status == Text("cancelled") ==> v == Cancel
  {
    ParseIntOfWord("cancelled");
    var n := ParseInt(status);
    if n == Some(1) || n == Some(2) || status == Text("paid") || status == Text("success") then Paid
    else if n == Some(3) || status == Text("cancelled") then Cancel
    else Fail
  }

  /** A JSON number is read as itself: 1 and 2 pay, 3 cancels, every other number fails. */
  lemma ClassifyNumber(n: int)
    ensures Classify(Num(n)) == if n == 1 || n == 2 then Paid else if n == 3 then Cancel else Fail
  {
  }

  lemma ClassifyNumbers()
    ensures Classify(Num(1)) == Paid && Classify(Num(2)) == Paid
    ensures Classify(Num(3)) == Cancel
    ensures Classify(Num(0)) == Fail && Classify(Missing) == Fail
  {
    ClassifyNumber(1);
    ClassifyNumber(2);
    ClassifyNumber(3);
    ClassifyNumber(0);
  }

  /** A word is read by its spelling alone: `parseInt` makes NaN of it. */
  lemma ClassifyWord(w: string)
    requires w != [] && 'a' <= w[0] <= 'z'
    ensures Classify(Text(w)) == if w == "paid" || w == "success" then Paid
                                 else if w == "cancelled" then Cancel
                                 else Fail
  {
    ParseIntOfWord(w);
  }

  /** The gateway's words: "expired" is not among those the webhook knows, so it fails the row. */
  lemma ClassifyWords()
    ensures Classify(Text("paid")) == Paid && Classify(Text("success")) == Paid
    ensures Classify(Text("cancelled")) == Cancel
    ensures Classify(Text("expired")) == Fail
  {
    ClassifyWord("paid");
    ClassifyWord("success");
    ClassifyWord("cancelled");
    ClassifyWord("expired");
  }

  // ---------------------------------------------------------------- POST (webhook)

  datatype PushReply = InvalidPayload | RowNotFound | AlreadyCompleted | Credited | OwnerNotFound
                     | MarkedCancelled | MarkedFailed

  function PushStatusCode(r: PushReply): int
  {
    match r
    case InvalidPayload => 400
    case RowNotFound => 404
    case OwnerNotFound => 404
    case _ => 200
  }

  /** The row the webhook settles: the first `oxapay` row whose payment id is the order id. */
  function PushTarget(rows: seq<Transaction>, trackId: Option<string>, orderId: Option<string>): Option<nat>
  {
    if Truthy(trackId) && Truthy(orderId) then FindOne(rows, orderId.value, true) else None
  }

  /**
   * `POST`: a body without a track id or order id, an unknown order, an already completed
   * row and a payment whose owner is gone change nothing. A payment credits the row (on any
   * status but completed, failed and cancelled rows included); a cancellation or failure
   * re-marks it and sets the track id, with every balance untouched.
   */
  function Push(s: Store, trackId: Option<string>, orderId: Option<string>, status: BodyValue): (out: (Store, PushReply))
    ensures !Truthy(trackId) || !Truthy(orderId) ==> out.1 == InvalidPayload
    ensures out.1 == RowNotFound <==> Truthy(trackId) && Truthy(orderId) && PushTarget(s.rows, trackId, orderId).None?
    ensures out.1 in {InvalidPayload, RowNotFound, AlreadyCompleted, OwnerNotFound} ==> out.0 == s
    ensures out.1 != Credited ==> out.0.users == s.users
    ensures PushTarget(s.rows, trackId, orderId).Some? ==>
      var i := PushTarget(s.rows, trackId, orderId).value;
      var row := s.rows[i];
      && (out.1 == AlreadyCompleted <==> row.paymentStatus == Completed)
      && (out.1 == Credited <==> row.paymentStatus != Completed && Classify(status) == Paid && row.userId in s.users)
      && (out.1 == OwnerNotFound <==> row.paymentStatus != Completed && Classify(status) == Paid && row.userId !in s.users)
      && (out.1 == MarkedCancelled <==> row.paymentStatus != Completed && Classify(status) == Cancel)
      && (out.1 == MarkedFailed <==> row.paymentStatus != Completed && Classify(status) == Fail)
      && (out.1 == Credited ==> CreditedRow(s, out.0, i, trackId))
      && (out.1 == MarkedCancelled ==> SettledRow(s, out.0, i, Cancelled, trackId))
      && (out.1 == MarkedFailed ==> SettledRow(s, out.0, i, Failed, trackId))
  {
    if !Truthy(trackId) || !Truthy(orderId) then (s, InvalidPayload)
    else match FindOne(s.rows, orderId.value, true)
      case None => (s, RowNotFound)
      case Some(i) =>
        var row := s.rows[i];
        // the track id is copied onto the row in memory here, but this branch never saves it
        if row.paymentStatus == Completed then (s, AlreadyCompleted)
        else
          var v := Classify(status);
          var reply := if v == Cancel then MarkedCancelled else if v == Fail then MarkedFailed
                       else if row.userId in s.users then Credited else OwnerNotFound;
          (Settle(s, i, v, trackId), reply)
  }

  // ---------------------------------------------------------------- GET (return URL)

  /**
   * Where the return handler sends the browser: the error page, or the client callback page
   * with the order id and, when truthy, the track id and status.
   */
  datatype ReturnRedirect = ToErrorPage | ToCallbackPage(orderId: string, trackId: Option<string>, status: Option<string>)

  /** The verdict of the return URL's `status` parameter (only consulted when it is truthy). */
  function StatusVerdict(status: Option<string>): Verdict
  {
    if status.Some? then Classify(Text(status.value)) else Fail
  }

  function ReturnTarget(rows: seq<Transaction>, orderId: Option<string>): Option<nat>
  {
    if Truthy(orderId) then FindOne(rows, orderId.value, true) else None
  }

  /**
   * `GET`: the row changes only when a status is present and the row is still pending; the
   * track id it keeps is the URL's when truthy, otherwise the stored one. A payment whose
   * owner is gone leaves the row pending. Every other request only redirects.
   */
  function Return(s: Store, orderId: Option<string>, trackId: Option<string>, status: Option<string>): (out: (Store, ReturnRedirect))
    ensures ReturnTarget(s.rows, orderId).None? ==> out == (s, ToErrorPage)
    ensures ReturnTarget(s.rows, orderId).Some? ==>
      var i := ReturnTarget(s.rows, orderId).value;
      var row := s.rows[i];
      var actual := Or(trackId, row.gatewayTransactionId);
      var verdict := StatusVerdict(status);
      && out.1 == ToCallbackPage(orderId.value, KeepTruthy(actual), KeepTruthy(status))
      && (!(Truthy(status) && row.paymentStatus == Pending) ==> out.0 == s)
      && (Truthy(status) && row.paymentStatus == Pending ==>
            && (verdict == Paid && row.userId in s.users ==> CreditedRow(s, out.0, i, actual))
            && (verdict == Paid && row.userId !in s.users ==> out.0 == s)
            && (verdict == Cancel ==> SettledRow(s, out.0, i, Cancelled, actual))
            && (verdict == Fail ==> SettledRow(s, out.0, i, Failed, actual)))
  {
    if !Truthy(orderId) then (s, ToErrorPage)
    else match FindOne(s.rows, orderId.value, true)
      case None => (s, ToErrorPage)
      case Some(i) =>
        var row := s.rows[i];
        var actual := Or(trackId, row.gatewayTransactionId);
        var redirect := ToCallbackPage(orderId.value, KeepTruthy(actual), KeepTruthy(status));
        // a truthy `actualTrackId` is written, otherwise the stored id stays: either way `actual`
        if Truthy(status) && row.paymentStatus == Pending then (Settle(s, i, StatusVerdict(status), actual), redirect)
        else (s, redirect)
  }
}
