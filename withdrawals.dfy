/**
 * The checks of src/app/api/wallet/withdraw/route.js before it debits a balance. The debit
 * and the row it writes are `Ledger.Ledger.Withdraw`.
 */
module Withdrawals {
  import opened Wrappers
  import opened TransactionModel
  import opened Store

  /** The smallest amount, in toman, that may be withdrawn. */
  const MinWithdrawAmount: int := 100000

  datatype WithdrawReply =
    | WithdrawNoToken
    | WithdrawInvalidToken
    | WithdrawAmountNotPositive
    | UnderMinimum
    | WithdrawUserNotFound
    | InsufficientBalance
    | Withdrawn(balance: int)

  function WithdrawStatusCode(r: WithdrawReply): int
  {
    match r
    case WithdrawNoToken => 401
    case WithdrawInvalidToken => 401
    case WithdrawAmountNotPositive => 400
    case UnderMinimum => 400
    case WithdrawUserNotFound => 404
    case InsufficientBalance => 400
    case Withdrawn(_) => 200
  }

  /**
   * The checks, in order: a token, a verifying token, a positive amount, at least the
   * minimum, an existing user, and a balance that covers the amount. A withdrawal is
   * admitted exactly when all hold.
   */
  function CheckWithdraw(caller: Credential, amount: Option<int>, users: map<UserId, User>): (r: Result<UserId, WithdrawReply>)
    ensures r.Ok? <==>
              && caller.Authenticated? && amount.Some? && amount.value >= MinWithdrawAmount
              && caller.userId in users && users[caller.userId].balance >= amount.value
    ensures r.Ok? ==> r.value == caller.userId
    ensures r.Err? ==> !r.error.Withdrawn?
    ensures caller.NoToken? ==> r == Err(WithdrawNoToken)
    ensures caller.InvalidToken? ==> r == Err(WithdrawInvalidToken)
    ensures caller.Authenticated? && (amount.None? || amount.value <= 0) ==> r == Err(WithdrawAmountNotPositive)
    ensures caller.Authenticated? && amount.Some? && 0 < amount.value < MinWithdrawAmount ==> r == Err(UnderMinimum)
    ensures (caller.Authenticated? && amount.Some? && amount.value >= MinWithdrawAmount
             && caller.userId !in users) ==> r == Err(WithdrawUserNotFound)
    ensures (caller.Authenticated? && amount.Some? && amount.value >= MinWithdrawAmount
             && caller.userId in users && users[caller.userId].balance < amount.value) ==> r == Err(InsufficientBalance)
  {
    match caller
    case NoToken => Err(WithdrawNoToken)
    case InvalidToken => Err(WithdrawInvalidToken)
    case Authenticated(userId) =>
      if amount.None? || amount.value <= 0 then Err(WithdrawAmountNotPositive)
      else if amount.value < MinWithdrawAmount then Err(UnderMinimum)
      else if userId !in users then Err(WithdrawUserNotFound)
      else if users[userId].balance < amount.value then Err(InsufficientBalance)
      else Ok(userId)
  }

  /** The row a withdrawal writes: the amount as a positive number and the balance after the debit. */
  function WithdrawalRow(userId: UserId, amount: int, balanceAfter: int): (row: Transaction)
    ensures Cast(Encode(row)) == Ok(row)
    ensures row.txType == Withdraw && row.userId == userId && row.amount == amount && row.balanceAfter == balanceAfter
    ensures row.paymentId.None? && row.paymentStatus == Pending
  {
    CastEncode(Transaction(userId, Withdraw, amount, Withdrawal(amount), None, balanceAfter, None, Pending, None, None));
    Transaction(userId, Withdraw, amount, Withdrawal(amount), None, balanceAfter, None, Pending, None, None)
  }
}
