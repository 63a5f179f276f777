/**
 * The persistent state the handlers read and write: the user documents (balance and game
 * statistics) and the table of ledger rows, with the two row lookups the payment handlers
 * issue and the invariant the handlers keep.
 */
module Store {
  import opened Wrappers
  import opened TransactionModel
  import Helper

  /** The fields of a user document that this core reads and writes. */
  datatype User = User(balance: int, wins: int, losses: int, totalScore: int, rank: int)

  datatype Store = Store(users: map<UserId, User>, rows: seq<Transaction>)

  /**
   * What token verification yields: no token in the request, a token that does not verify,
   * or the user id it carries.
   */
  datatype Credential = NoToken | InvalidToken | Authenticated(userId: UserId)

  /**
   * The filter of `Transaction.findOne`: `{paymentId, gateway: "oxapay"}` when `oxapayOnly`,
   * otherwise `{paymentId}` alone.
   */
  predicate Matches(row: Transaction, orderId: string, oxapayOnly: bool)
  {
    row.paymentId == Some(orderId) && (oxapayOnly ==> row.gateway == Some(Oxapay))
  }

  /** `findOne` in stored order: the index of the first matching row, if any. */
  function FindOne(rows: seq<Transaction>, orderId: string, oxapayOnly: bool): (r: Option<nat>)
    ensures r.Some? ==> r.value < |rows| && Matches(rows[r.value], orderId, oxapayOnly)
    ensures r.Some? ==> forall k :: 0 <= k < r.value ==> !Matches(rows[k], orderId, oxapayOnly)
    ensures r.None? <==> forall k :: 0 <= k < |rows| ==> !Matches(rows[k], orderId, oxapayOnly)
  {
    if rows == [] then None
    else if Matches(rows[0], orderId, oxapayOnly) then Some(0)
    else
      match FindOne(rows[1..], orderId, oxapayOnly)
      case None => None
      case Some(k) => Some(k + 1)
  }

  /** Two row tables that agree, row by row, on everything the lookups and credits read. */
  ghost predicate SameKeys(a: seq<Transaction>, b: seq<Transaction>)
  {
    |a| == |b|
    && forall k :: 0 <= k < |a| ==>
         && a[k].paymentId == b[k].paymentId && a[k].gateway == b[k].gateway
         && a[k].userId == b[k].userId && a[k].amount == b[k].amount
  }

  /** The lookups only read `paymentId` and `gateway`, so they land on the same row. */
  lemma {:induction false} FindOneSameKeys(a: seq<Transaction>, b: seq<Transaction>, orderId: string, oxapayOnly: bool)
    requires SameKeys(a, b)
    ensures FindOne(a, orderId, oxapayOnly) == FindOne(b, orderId, oxapayOnly)
    decreases |a|
  {
    if a != [] {
      assert Matches(a[0], orderId, oxapayOnly) <==> Matches(b[0], orderId, oxapayOnly);
      assert SameKeys(a[1..], b[1..]) by {
        forall k | 0 <= k < |a| - 1
          ensures a[1..][k] == a[k + 1] && b[1..][k] == b[k + 1]
        {
        }
      }
      FindOneSameKeys(a[1..], b[1..], orderId, oxapayOnly);
    }
  }

  /** The user map after the owner of `row` has been credited its amount. */
  function CreditOwner(users: map<UserId, User>, row: Transaction): (r: map<UserId, User>)
    requires row.userId in users
    ensures r.Keys == users.Keys
    ensures r[row.userId] == users[row.userId].(balance := users[row.userId].balance + row.amount)
    ensures forall u :: u in users && u != row.userId ==> r[u] == users[u]
  {
    users[row.userId := users[row.userId].(balance := users[row.userId].balance + row.amount)]
  }

  /** A user whose statistics are consistent: nothing negative and the rank follows the score. */
  ghost predicate UserSound(u: User)
  {
    u.balance >= 0 && u.wins >= 0 && u.losses >= 0 && u.totalScore >= 0
    && u.rank == Helper.CalculateRank(u.totalScore)
  }

  /**
   * The invariant the handlers keep: every user is sound, and every row that carries a
   * payment id (a deposit intent) is for a positive amount, so crediting it never drives a
   * balance down.
   */
  ghost predicate Sound(s: Store)
  {
    (forall u :: u in s.users ==> UserSound(s.users[u]))
    && (forall k :: 0 <= k < |s.rows| && s.rows[k].paymentId.Some? ==> s.rows[k].amount > 0)
  }

  /**
   * `t` is `s` after row `i` has been credited, as all three payment channels do it: the
   * owner's balance rises by exactly the row's amount, and the row becomes completed with
   * `balanceAfter` equal to that new balance, the tracking id `trackId` and the paid
   * description. Nothing else changes.
   */
  ghost predicate CreditedRow(s: Store, t: Store, i: nat, trackId: Option<string>)
  {
    && i < |s.rows| && s.rows[i].userId in s.users
    && var row := s.rows[i];
       var balance := s.users[row.userId].balance + row.amount;
       && t.users == CreditOwner(s.users, row)
       && t.rows == s.rows[i := row.(paymentStatus := Completed, balanceAfter := balance,
                                     gatewayTransactionId := trackId, description := DepositPaid(row.amount))]
  }

  /**
   * `t` is `s` after row `i` has been marked cancelled or failed: its status, description and
   * tracking id change, no balance does.
   */
  ghost predicate SettledRow(s: Store, t: Store, i: nat, status: PaymentStatus, trackId: Option<string>)
  {
    && i < |s.rows| && (status == Cancelled || status == Failed)
    && var row := s.rows[i];
       && t.users == s.users
       && t.rows == s.rows[i := row.(paymentStatus := status, gatewayTransactionId := trackId,
                                     description := if status == Cancelled then DepositCancelled(row.amount)
                                                    else DepositFailed(row.amount))]
  }

  /** What a channel has decided about a deposit row. */
  datatype Verdict = Paid | Cancel | Fail

  /**
   * What a verdict does to row `i` once a handler has decided to act on it: a payment
   * credits the owner (and does nothing when the owner is gone), a cancellation or failure
   * re-marks the row; in each case the row keeps the tracking id `trackId`.
   */
  function Settle(s: Store, i: nat, v: Verdict, trackId: Option<string>): (t: Store)
    requires i < |s.rows|
    ensures v == Paid && s.rows[i].userId in s.users ==> CreditedRow(s, t, i, trackId)
    ensures v == Paid && s.rows[i].userId !in s.users ==> t == s
    ensures v == Cancel ==> SettledRow(s, t, i, Cancelled, trackId)
    ensures v == Fail ==> SettledRow(s, t, i, Failed, trackId)
  {
    var row := s.rows[i];
    match v
    case Paid =>
      if row.userId !in s.users then s
      else
        var user := s.users[row.userId];
        var balance := user.balance + row.amount;
        var paid := row.(paymentStatus := Completed, gatewayTransactionId := trackId,
                         balanceAfter := balance, description := DepositPaid(row.amount));
        Store(s.users[row.userId := user.(balance := balance)], s.rows[i := paid])
    case Cancel =>
      Store(s.users, s.rows[i := row.(paymentStatus := Cancelled, gatewayTransactionId := trackId,
                                      description := DepositCancelled(row.amount))])
    case Fail =>
      Store(s.users, s.rows[i := row.(paymentStatus := Failed, gatewayTransactionId := trackId,
                                      description := DepositFailed(row.amount))])
  }
}
