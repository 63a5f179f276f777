/**
 * The decisions of src/app/api/wallet/create-payment/route.js that come before any write:
 * who is asking, whether the amount is acceptable, and whether it reaches the gateway's
 * minimum of 0.01 USDT at the current exchange rate. The writes are
 * `Ledger.Ledger.CreatePayment`.
 */
module PaymentRequest {
  import opened Wrappers
  import opened JsValues
  import opened TransactionModel
  import opened Store

  /**
   * The USDT/IRT order book as the handler reads it: no usable answer (a failed request, a
   * status other than "ok", a falsy last trade price), or `parseFloat(lastTradePrice)` in
   * rials, `None` standing for NaN.
   */
  datatype PriceFeed = FeedFailed | FeedRial(rial: Option<real>)

  /** The invoice endpoint's answer: an exception, or the fields the handler reads from its JSON. */
  datatype InvoiceReply =
    | InvoiceThrew
    | Invoice(status: Option<int>, paymentUrl: Option<string>, trackId: Option<string>, message: Option<string>)

  datatype CreateReply =
    | CreateNoToken
    | CreateInvalidToken
    | AmountNotPositive
    | PriceUnavailable
    | BelowMinimum
    | CreateUserNotFound
    | InvoiceCreated(paymentId: string, paymentUrl: string, trackId: Option<string>)
    | InvoiceRejected(message: Option<string>)
    | GatewayUnreachable

  function CreateStatusCode(r: CreateReply): int
  {
    match r
    case CreateNoToken => 401
    case CreateInvalidToken => 401
    case AmountNotPositive => 400
    case PriceUnavailable => 500
    case BelowMinimum => 400
    case CreateUserNotFound => 404
    case InvoiceCreated(_, _, _) => 200
    case InvoiceRejected(_) => 400
    case GatewayUnreachable => 500
  }

  /**
   * Whether `amount` toman stays under 0.01 USDT at `rial` rials per USDT (ten rials to the
   * toman), computed in exact arithmetic. A zero price makes the quotient infinite and NaN
   * compares false, so neither is "below"; a negative price makes the quotient negative, so
   * it always is.
   */
  predicate BelowUsdtMinimum(amount: int, rial: Option<real>)
  {
    match rial
    case None => false
    case Some(r) => r != 0.0 && (amount as real) * 10.0 / r < 0.01
  }

  /** At a positive price the minimum is a thousandth of the rial price, in toman. */
  lemma MinimumInToman(amount: int, r: real)
    requires r > 0.0
    ensures BelowUsdtMinimum(amount, Some(r)) <==> (amount as real) * 1000.0 < r
  {
    var usdt := (amount as real) * 10.0 / r;
    assert usdt * r == (amount as real) * 10.0;
    if usdt < 0.01 {
      assert usdt * r < 0.01 * r;
    } else {
      assert usdt * r >= 0.01 * r;
    }
  }

  /** Every amount is below the minimum at a negative price. */
  lemma NegativePriceBlocks(amount: int, r: real)
    requires amount > 0 && r < 0.0
    ensures BelowUsdtMinimum(amount, Some(r))
  {
    var usdt := (amount as real) * 10.0 / r;
    assert usdt * r == (amount as real) * 10.0;
  }

  /**
   * Everything create-payment checks before it writes a row, in its order: a token, a
   * verifying token, a positive amount, a usable price, the 0.01 USDT minimum, and an
   * existing user. The result is that user's id, or the reply that ends the request.
   */
  function Admit(caller: Credential, amount: Option<int>, feed: PriceFeed, users: map<UserId, User>): (r: Result<UserId, CreateReply>)
    ensures r.Ok? <==>
              && caller.Authenticated? && amount.Some? && amount.value > 0 && feed.FeedRial?
              && !BelowUsdtMinimum(amount.value, feed.rial) && caller.userId in users
    ensures r.Ok? ==> r.value == caller.userId
    ensures r.Err? ==> CreateStatusCode(r.error) in {400, 401, 404, 500} && !r.error.InvoiceRejected?
    ensures caller.NoToken? ==> r == Err(CreateNoToken)
    ensures caller.InvalidToken? ==> r == Err(CreateInvalidToken)
    ensures caller.Authenticated? && (amount.None? || amount.value <= 0) ==> r == Err(AmountNotPositive)
    ensures caller.Authenticated? && amount.Some? && amount.value > 0 && feed.FeedFailed? ==> r == Err(PriceUnavailable)
    ensures (caller.Authenticated? && amount.Some? && amount.value > 0 && feed.FeedRial?
             && BelowUsdtMinimum(amount.value, feed.rial)) ==> r == Err(BelowMinimum)
    ensures (caller.Authenticated? && amount.Some? && amount.value > 0 && feed.FeedRial?
             && !BelowUsdtMinimum(amount.value, feed.rial) && caller.userId !in users) ==> r == Err(CreateUserNotFound)
  {
    match caller
    case NoToken => Err(CreateNoToken)
    case InvalidToken => Err(CreateInvalidToken)
    case Authenticated(userId) =>
      if amount.None? || amount.value <= 0 then Err(AmountNotPositive)
      else match feed
        case FeedFailed => Err(PriceUnavailable)
        case FeedRial(rial) =>
          if BelowUsdtMinimum(amount.value, rial) then Err(BelowMinimum)
          else if userId !in users then Err(CreateUserNotFound)
          else Ok(userId)
  }

  /** The invoice is accepted when its status is 200 and it carries a (truthy) payment URL. */
  predicate InvoiceAccepted(invoice: InvoiceReply)
  {
    invoice.Invoice? && invoice.status == Some(200) && Truthy(invoice.paymentUrl)
  }

  /**
   * The deposit row written before the gateway is called: pending, for the requested
   * amount, tagged with the order id and the gateway, recording the balance as it stands
   * (no credit has happened yet).
   */
  function PendingDeposit(userId: UserId, amount: int, balance: int, paymentId: string, testMode: bool): (row: Transaction)
    ensures Cast(Encode(row)) == Ok(row)
    ensures row.paymentStatus == Pending && row.paymentId == Some(paymentId) && row.gateway == Some(Oxapay)
    ensures row.userId == userId && row.amount == amount && row.balanceAfter == balance && row.txType == Deposit
  {
    CastEncode(Transaction(userId, Deposit, amount, DepositAwaiting(amount, testMode), None, balance,
                           Some(paymentId), Pending, Some(Oxapay), None));
    Transaction(userId, Deposit, amount, DepositAwaiting(amount, testMode), None, balance,
                Some(paymentId), Pending, Some(Oxapay), None)
  }

  /** The reply once the row exists: the gateway's link, or the rejection, or the transport error. */
  function InvoiceOutcome(paymentId: string, invoice: InvoiceReply): (r: CreateReply)
    ensures r.InvoiceCreated? <==> InvoiceAccepted(invoice)
    ensures r.InvoiceCreated? ==> r.paymentId == paymentId && Some(r.paymentUrl) == invoice.paymentUrl
    ensures r == GatewayUnreachable <==> invoice.InvoiceThrew?
  {
    match invoice
    case InvoiceThrew => GatewayUnreachable
    case Invoice(status, paymentUrl, trackId, message) =>
      if InvoiceAccepted(invoice) then InvoiceCreated(paymentId, paymentUrl.value, trackId)
      else InvoiceRejected(KeepTruthy(message))  // `message || default`: `None` is the default
  }
}
