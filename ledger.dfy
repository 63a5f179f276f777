/**
 * The wallet as the handlers see it: one mutable store of user documents and ledger rows,
 * and one method per route handler, each taken as one atomic step. The three settlement
 * channels are specified by the functions of `PaymentCallback` and `VerifyPayment`, so the
 * reconciliation theorem of `Reconciliation` applies to any sequence of their calls.
 */
module Ledger {
  import opened Wrappers
  import opened JsValues
  import opened TransactionModel
  import opened Store
  import opened PaymentCallback
  import opened VerifyPayment
  import opened PaymentRequest
  import opened Withdrawals
  import opened Games
  import Reconciliation
  import Helper

  datatype PayoutReply = MissingParticipants | NoPayoutNeeded | PlayerNotFound | PaidOut(winnerBalance: int)

  function PayoutStatusCode(r: PayoutReply): int
  {
    match r
    case MissingParticipants => 400
    case PlayerNotFound => 404
    case _ => 200
  }

  class Ledger {
    var users: map<UserId, User>
    var rows: seq<Transaction>

    function State(): Store
      reads this
    {
      Store(users, rows)
    }

    ghost predicate Valid()
      reads this
    {
      Sound(State())
    }

    constructor (initial: map<UserId, User>)
      ensures users == initial && rows == []
    {
      users := initial;
      rows := [];
    }

    /**
     * The write every settlement channel performs once it has decided: a payment adds the
     * row's amount to its owner's balance and completes the row with the new balance, a
     * cancellation or failure re-marks it; the row keeps the tracking id `trackId`.
     */
    method SettleRow(i: nat, verdict: Verdict, trackId: Option<string>)
      requires i < |rows|
      modifies this
      ensures State() == Settle(old(State()), i, verdict, trackId)
    {
      var row := rows[i];
      if verdict == Paid {
        if row.userId !in users {
          return;
        }
        var user := users[row.userId];
        user := user.(balance := user.balance + row.amount);
        users := users[row.userId := user];
        row := row.(paymentStatus := Completed, balanceAfter := user.balance, description := DepositPaid(row.amount));
      } else if verdict == Cancel {
        row := row.(paymentStatus := Cancelled, description := DepositCancelled(row.amount));
      } else {
        row := row.(paymentStatus := Failed, description := DepositFailed(row.amount));
      }
      rows := rows[i := row.(gatewayTransactionId := trackId)];
    }

    /** The gateway webhook, `POST /api/wallet/payment-callback`. */
    method PaymentCallbackPost(trackId: Option<string>, orderId: Option<string>, status: BodyValue) returns (reply: PushReply)
      modifies this
      ensures (State(), reply) == Push(old(State()), trackId, orderId, status)
      ensures old(Valid()) ==> Valid()
    {
      if Valid() {
        Reconciliation.StepKeepsSound(State(), Reconciliation.Webhook(trackId, orderId, status));
      }
      if !Truthy(trackId) || !Truthy(orderId) {
        return InvalidPayload;
      }
      var found := FindOne(rows, orderId.value, true);
      if found.None? {
        return RowNotFound;
      }
      var i := found.value;
      if rows[i].paymentStatus == Completed {
        return AlreadyCompleted;
      }
      var verdict := Classify(status);
      reply := if verdict == Cancel then MarkedCancelled else if verdict == Fail then MarkedFailed
               else if rows[i].userId in users then Credited else PushReply.OwnerNotFound;
      SettleRow(i, verdict, trackId);
    }

    /** The browser's return, `GET /api/wallet/payment-callback`. */
    method PaymentCallbackGet(orderId: Option<string>, trackId: Option<string>, status: Option<string>) returns (redirect: ReturnRedirect)
      modifies this
      ensures (State(), redirect) == Return(old(State()), orderId, trackId, status)
      ensures old(Valid()) ==> Valid()
    {
      if Valid() {
        Reconciliation.StepKeepsSound(State(), Reconciliation.BrowserReturn(orderId, trackId, status));
      }
      if !Truthy(orderId) {
        return ToErrorPage;
      }
      var found := FindOne(rows, orderId.value, true);
      if found.None? {
        return ToErrorPage;
      }
      var i := found.value;
      var actual := Or(trackId, rows[i].gatewayTransactionId);
      redirect := ToCallbackPage(orderId.value, KeepTruthy(actual), KeepTruthy(status));
      if Truthy(status) && rows[i].paymentStatus == Pending {
        // a truthy `actualTrackId` is written, otherwise the stored id stays: either way `actual`
        SettleRow(i, StatusVerdict(status), actual);
      }
    }

    /** The client's poll, `GET /api/wallet/verify-payment`. */
    method VerifyPayment(orderId: Option<string>, trackId: Option<string>, query: StatusQuery) returns (reply: VerifyReply)
      modifies this
      ensures (State(), reply) == Verify(old(State()), orderId, trackId, query)
      ensures old(Valid()) ==> Valid()
    {
      if Valid() {
        Reconciliation.StepKeepsSound(State(), Reconciliation.Poll(orderId, trackId, query));
      }
      if !Truthy(orderId) {
        return MissingOrderId;
      }
      var found := FindOne(rows, orderId.value, true);
      if found.None? {
        found := FindOne(rows, orderId.value, false);
      }
      if found.None? {
        return PaymentNotFound;
      }
      var i := found.value;
      var row := rows[i];
      var pending := row.paymentStatus == Pending;
      if row.paymentStatus == Completed {
        return AlreadyVerified(if row.userId in users then users[row.userId].balance else 0);
      }
      var actual := Or(trackId, row.gatewayTransactionId);
      if !Truthy(actual) {
        return if pending then StillPending else NotPaid(row.paymentStatus == Cancelled);
      }
      if query.QueryThrew? {
        return if pending then StillPending else CheckError;
      }
      if query.QueryNotOk? {
        return if pending then StillPending else GatewayCheckFailed;
      }
      match GatewayVerdict(query.status) {
        case None =>
          reply := Unsettled(row.paymentStatus);
        case Some(Paid) =>
          if row.userId !in users {
            return VerifyReply.OwnerNotFound;
          }
          SettleRow(i, Paid, actual);
          reply := VerifiedPaid(users[row.userId].balance);
        case Some(Cancel) =>
          // the cancelled and failed branches leave the stored track id as it is
          SettleRow(i, Cancel, row.gatewayTransactionId);
          reply := Unsettled(Cancelled);
        case Some(Fail) =>
          SettleRow(i, Fail, row.gatewayTransactionId);
          reply := Unsettled(Failed);
      }
    }

    /**
     * `POST /api/wallet/create-payment`: after the checks, a pending deposit row is written,
     * then the invoice is requested; an accepted invoice stores its track id on the row,
     * anything else marks the row failed. No balance is touched.
     */
    method CreatePayment(caller: Credential, amount: Option<int>, feed: PriceFeed, paymentId: string,
                         testMode: bool, invoice: InvoiceReply) returns (reply: CreateReply)
      modifies this
      ensures users == old(users)
      ensures Admit(caller, amount, feed, old(users)).Err? ==>
                rows == old(rows) && reply == Admit(caller, amount, feed, old(users)).error
      ensures Admit(caller, amount, feed, old(users)).Ok? ==>
                var row := PendingDeposit(caller.userId, amount.value, old(users)[caller.userId].balance, paymentId, testMode);
                && reply == InvoiceOutcome(paymentId, invoice)
                && (InvoiceAccepted(invoice) ==> rows == old(rows) + [row.(gatewayTransactionId := invoice.trackId)])
                && (!InvoiceAccepted(invoice) ==> rows == old(rows) + [row.(paymentStatus := Failed)])
      ensures old(Valid()) ==> Valid()
    {
      var admitted := Admit(caller, amount, feed, users);
      if admitted.Err? {
        return admitted.error;
      }
      var userId := admitted.value;
      var row := PendingDeposit(userId, amount.value, users[userId].balance, paymentId, testMode);
      rows := rows + [row];
      var last := |rows| - 1;
      if InvoiceAccepted(invoice) {
        rows := rows[last := rows[last].(gatewayTransactionId := invoice.trackId)];
      } else {
        rows := rows[last := rows[last].(paymentStatus := Failed)];
      }
      reply := InvoiceOutcome(paymentId, invoice);
    }

    /**
     * `POST /api/wallet/withdraw`: an admitted withdrawal lowers the caller's balance by the
     * amount and records one withdraw row with the new balance; otherwise nothing changes.
     */
    method Withdraw(caller: Credential, amount: Option<int>) returns (reply: WithdrawReply)
      modifies this
      ensures CheckWithdraw(caller, amount, old(users)).Err? ==>
                users == old(users) && rows == old(rows) && reply == CheckWithdraw(caller, amount, old(users)).error
      ensures CheckWithdraw(caller, amount, old(users)).Ok? ==>
                var u := caller.userId;
                var balance := old(users)[u].balance - amount.value;
                && users == old(users)[u := old(users)[u].(balance := balance)]
                && rows == old(rows) + [WithdrawalRow(u, amount.value, balance)]
                && reply == Withdrawn(balance) && balance >= 0
      ensures old(Valid()) ==> Valid()
    {
      var admitted := CheckWithdraw(caller, amount, users);
      if admitted.Err? {
        return admitted.error;
      }
      var userId := admitted.value;
      var user := users[userId];
      user := user.(balance := user.balance - amount.value);
      users := users[userId := user];
      rows := rows + [WithdrawalRow(userId, amount.value, user.balance)];
      reply := Withdrawn(user.balance);
    }

    /**
     * The two saves of a payout: the winner is saved first, then the loser's document,
     * loaded before that save, writes the fields it changed on its own copy. Returns the
     * balances the two rows record.
     */
    method SavePlayers(w: UserId, l: UserId, bet: int) returns (winnerBalance: int, loserBalance: int)
      requires w in users && l in users
      modifies this
      ensures users == PayoutUsers(old(users), w, l, bet) && rows == old(rows)
      ensures winnerBalance == WinnerAfter(old(users)[w], bet).balance
      ensures loserBalance == old(users)[l].balance
    {
      var winner, loser := users[w], users[l];
      var loadedWinner, loadedLoser := winner, loser;
      winner := winner.(balance := winner.balance + 2 * bet, wins := winner.wins + 1, totalScore := winner.totalScore + WinPoints);
      winner := winner.(rank := Helper.CalculateRank(winner.totalScore));
      loser := loser.(losses := loser.losses + 1,
                      totalScore := if loser.totalScore - LossPoints > 0 then loser.totalScore - LossPoints else 0);
      loser := loser.(rank := Helper.CalculateRank(loser.totalScore));
      assert loser == LoserAfter(old(users)[l]);
      // each save writes only the paths its document changed since it was loaded
      users := users[w := SaveModified(users[w], loadedWinner, winner)];
      users := users[l := SaveModified(users[l], loadedLoser, loser)];
      winnerBalance, loserBalance := winner.balance, loser.balance;
    }

    /**
     * `POST /api/games/payout`: with three ids and a positive stake, and both players
     * found, the winner is credited two stakes, both players' game statistics are updated
     * (`PayoutUsers`), and a game_win and a game_loss row are appended. The loser's
     * balance is not debited here.
     */
    method Payout(roomId: Option<string>, winnerId: Option<string>, loserId: Option<string>,
                  betAmount: Option<int>, gameType: Option<string>) returns (reply: PayoutReply)
      modifies this
      ensures !(Truthy(roomId) && Truthy(winnerId) && Truthy(loserId)) ==>
                users == old(users) && rows == old(rows) && reply == MissingParticipants
      ensures Truthy(roomId) && Truthy(winnerId) && Truthy(loserId) && !IsStake(betAmount) ==>
                users == old(users) && rows == old(rows) && reply == NoPayoutNeeded
      ensures Truthy(roomId) && Truthy(winnerId) && Truthy(loserId) && IsStake(betAmount)
              && (winnerId.value !in old(users) || loserId.value !in old(users)) ==>
                users == old(users) && rows == old(rows) && reply == PlayerNotFound
      ensures Truthy(roomId) && Truthy(winnerId) && Truthy(loserId) && IsStake(betAmount)
              && winnerId.value in old(users) && loserId.value in old(users) ==>
                var w, l, bet := winnerId.value, loserId.value, betAmount.value;
                var won := WinnerAfter(old(users)[w], bet);
                var game := GameOf(gameType);
                && users == PayoutUsers(old(users), w, l, bet)
                && rows == old(rows) + [WinRow(w, l, bet, game, won.balance), LossRow(l, w, bet, game, old(users)[l].balance)]
                && reply == PaidOut(won.balance)
      ensures old(Valid()) && !(reply.PaidOut? && winnerId == loserId) ==> Valid()
    {
      if !Truthy(roomId) || !Truthy(winnerId) || !Truthy(loserId) {
        return MissingParticipants;
      }
      if !IsStake(betAmount) {
        return NoPayoutNeeded;
      }
      var w, l, bet := winnerId.value, loserId.value, betAmount.value;
      if w !in users || l !in users {
        return PlayerNotFound;
      }
      var game := GameOf(gameType);
      if Valid() && w != l {
        PayoutKeepsStoreSound(State(), w, l, bet, game);
      }
      var winnerBalance, loserBalance := SavePlayers(w, l, bet);
      rows := rows + [WinRow(w, l, bet, game, winnerBalance), LossRow(l, w, bet, game, loserBalance)];
      reply := PaidOut(winnerBalance);
    }
  }
}
