/**
 * The wager side of the wallet: src/app/api/games/validate-bet/route.js, which checks that
 * a stake is covered, and the user-document arithmetic of src/app/api/games/payout/route.js
 * (the payout itself, which also writes rows, is `Ledger.Ledger.Payout`).
 */
module Games {
  import opened Wrappers
  import opened TransactionModel
  import opened Store
  import Helper

  // ---------------------------------------------------------------- validate-bet

  datatype BetReply =
    | BetNoToken
    | BetInvalidToken
    | BetMissing
    | FreeGame
    | BetNegative
    | BetUserNotFound
    | Insufficient(balance: int, required: int, shortage: int)
    | Sufficient(balance: int)

  function BetStatusCode(r: BetReply): int
  {
    match r
    case BetNoToken => 401
    case BetInvalidToken => 401
    case BetMissing => 400
    case BetNegative => 400
    case BetUserNotFound => 404
    case _ => 200
  }

  /** The `valid` flag of the reply. */
  predicate BetValid(r: BetReply)
  {
    r.FreeGame? || r.Sufficient?
  }

  /**
   * validate-bet: read-only. A zero stake is a free game that needs no user; a positive
   * stake is valid exactly when the caller's balance covers it, and otherwise the reply
   * reports how much is missing.
   */
  function ValidateBet(caller: Credential, betAmount: Option<int>, users: map<UserId, User>): (r: BetReply)
    ensures caller.NoToken? ==> r == BetNoToken
    ensures caller.InvalidToken? ==> r == BetInvalidToken
    ensures caller.Authenticated? && betAmount.None? ==> r == BetMissing
    ensures caller.Authenticated? && betAmount == Some(0) ==> r == FreeGame
    ensures caller.Authenticated? && betAmount.Some? && betAmount.value < 0 ==> r == BetNegative
    ensures BetValid(r) <==>
              caller.Authenticated? && betAmount.Some?
              && (betAmount.value == 0
                  || (betAmount.value > 0 && caller.userId in users && users[caller.userId].balance >= betAmount.value))
    ensures r.Insufficient? ==>
              && caller.Authenticated? && caller.userId in users
              && r.balance == users[caller.userId].balance && r.required == betAmount.value
              && r.shortage > 0 && r.balance + r.shortage == r.required
    ensures r.Sufficient? ==> caller.Authenticated? && caller.userId in users && r.balance == users[caller.userId].balance
    ensures caller.Authenticated? && betAmount.Some? && betAmount.value > 0 ==>
              var bet := betAmount.value;
              && (caller.userId !in users ==> r == BetUserNotFound)
              && (caller.userId in users && users[caller.userId].balance < bet ==>
                    r == Insufficient(users[caller.userId].balance, bet, bet - users[caller.userId].balance))
              && (caller.userId in users && users[caller.userId].balance >= bet ==>
                    r == Sufficient(users[caller.userId].balance))
  {
    match caller
    case NoToken => BetNoToken
    case InvalidToken => BetInvalidToken
    case Authenticated(userId) =>
      match betAmount
      case None => BetMissing
      case Some(bet) =>
        if bet == 0 then FreeGame
        else if bet < 0 then BetNegative
        else if userId !in users then BetUserNotFound
        else
          var balance := users[userId].balance;
          if balance < bet then Insufficient(balance, bet, bet - balance) else Sufficient(balance)
  }

  // ---------------------------------------------------------------- payout arithmetic

  /** The stake, if any: `!betAmount || betAmount <= 0` is a free game. */
  predicate IsStake(betAmount: Option<int>)
  {
    betAmount.Some? && betAmount.value > 0
  }

  /** The game named in the description: anything but "tictactoe" and "chess" reads as rock-paper-scissors. */
  function GameOf(gameType: Option<string>): (g: GameKind)
    ensures g == TicTacToe <==> gameType == Some("tictactoe")
    ensures g == Chess <==> gameType == Some("chess")
  {
    if gameType == Some("tictactoe") then TicTacToe
    else if gameType == Some("chess") then Chess
    else RockPaperScissors
  }

  const WinPoints: int := 20
  const LossPoints: int := 5

  /** The winner's document after a payout: two stakes, one more win, twenty points, a fresh rank. */
  function WinnerAfter(u: User, bet: int): (r: User)
    ensures r.balance == u.balance + 2 * bet && r.wins == u.wins + 1 && r.losses == u.losses
    ensures r.totalScore == u.totalScore + WinPoints && r.rank == Helper.CalculateRank(r.totalScore)
    ensures UserSound(u) && bet >= 0 ==> UserSound(r)
  {
    var score := u.totalScore + WinPoints;
    u.(balance := u.balance + 2 * bet, wins := u.wins + 1, totalScore := score,
       rank := Helper.CalculateRank(score))
  }

  /** The loser's document after a payout: one more loss, five points off (never below zero), a fresh rank; the balance stays. */
  function LoserAfter(u: User): (r: User)
    ensures r.balance == u.balance && r.wins == u.wins && r.losses == u.losses + 1
    ensures 0 <= r.totalScore && (u.totalScore >= 0 ==> r.totalScore <= u.totalScore)
    ensures u.totalScore >= LossPoints ==> r.totalScore == u.totalScore - LossPoints
    ensures r.rank == Helper.CalculateRank(r.totalScore)
    ensures UserSound(u) ==> UserSound(r)
  {
    var score := if u.totalScore - LossPoints > 0 then u.totalScore - LossPoints else 0;
    u.(losses := u.losses + 1, totalScore := score, rank := Helper.CalculateRank(score))
  }

  /**
   * What Mongoose's `save()` stores: a path is written only when the edited document's value
   * differs from the value it was loaded with; every other path keeps what is stored now.
   */
  function SaveModified(stored: User, loaded: User, edited: User): (r: User)
    ensures stored == loaded ==> r == edited
    ensures edited == loaded ==> r == stored
    ensures edited.balance != loaded.balance ==> r.balance == edited.balance
    ensures edited.balance == loaded.balance ==> r.balance == stored.balance
    ensures edited.wins != loaded.wins ==> r.wins == edited.wins
    ensures edited.wins == loaded.wins ==> r.wins == stored.wins
    ensures edited.losses != loaded.losses ==> r.losses == edited.losses
    ensures edited.losses == loaded.losses ==> r.losses == stored.losses
    ensures edited.totalScore != loaded.totalScore ==> r.totalScore == edited.totalScore
    ensures edited.totalScore == loaded.totalScore ==> r.totalScore == stored.totalScore
    ensures edited.rank != loaded.rank ==> r.rank == edited.rank
    ensures edited.rank == loaded.rank ==> r.rank == stored.rank
  {
    User(if edited.balance != loaded.balance then edited.balance else stored.balance,
         if edited.wins != loaded.wins then edited.wins else stored.wins,
         if edited.losses != loaded.losses then edited.losses else stored.losses,
         if edited.totalScore != loaded.totalScore then edited.totalScore else stored.totalScore,
         if edited.rank != loaded.rank then edited.rank else stored.rank)
  }

  /**
   * The user map after a payout. Both documents are loaded first; the winner is saved, then
   * the loser, each writing only the paths it changed. When the two ids differ that is
   * simply both updates.
   */
  function PayoutUsers(users: map<UserId, User>, winnerId: UserId, loserId: UserId, bet: int): (r: map<UserId, User>)
    requires winnerId in users && loserId in users
    ensures r.Keys == users.Keys
    ensures forall u :: u in users && u != winnerId && u != loserId ==> r[u] == users[u]
    ensures winnerId != loserId ==>
              r[winnerId] == WinnerAfter(users[winnerId], bet) && r[loserId] == LoserAfter(users[loserId])
  {
    var winner, loser := users[winnerId], users[loserId];
    var afterWinner := users[winnerId := SaveModified(winner, winner, WinnerAfter(winner, bet))];
    afterWinner[loserId := SaveModified(afterWinner[loserId], loser, LoserAfter(loser))]
  }

  /**
   * Between two distinct players, the winner gains exactly two stakes, a win and twenty
   * points; the loser keeps its balance and gains a loss; both ranks follow the new scores.
   */
  lemma PayoutBetweenTwo(users: map<UserId, User>, winnerId: UserId, loserId: UserId, bet: int)
    requires winnerId in users && loserId in users && winnerId != loserId
    ensures var r := PayoutUsers(users, winnerId, loserId, bet);
            var w, l := users[winnerId], users[loserId];
            && r[winnerId] == w.(balance := w.balance + 2 * bet, wins := w.wins + 1,
                                 totalScore := w.totalScore + 20, rank := Helper.CalculateRank(w.totalScore + 20))
            && r[loserId].balance == l.balance && r[loserId].wins == l.wins && r[loserId].losses == l.losses + 1
            && r[loserId].totalScore == (if l.totalScore >= 5 then l.totalScore - 5 else 0)
            && r[loserId].rank == Helper.CalculateRank(r[loserId].totalScore)
  {
  }

  /**
   * A player paid out against itself: the winner's save lands first, then the loser's save
   * overwrites only what the loser's copy changed. So the balance and the win stay and the
   * loss is added; the loser's score replaces the winner's unless it equals the loaded score
   * (a score of 0), and the loser's recomputed rank replaces the winner's unless it equals
   * the loaded rank.
   */
  lemma PayoutAgainstSelf(users: map<UserId, User>, id: UserId, bet: int)
    requires id in users && bet > 0
    ensures var r := PayoutUsers(users, id, id, bet)[id];
            var u := users[id];
            var lost := if u.totalScore >= 5 then u.totalScore - 5 else 0;
            && r.balance == u.balance + 2 * bet && r.wins == u.wins + 1 && r.losses == u.losses + 1
            && r.totalScore == (if u.totalScore == 0 then u.totalScore + 20 else lost)
            && r.rank == (if Helper.CalculateRank(lost) == u.rank then Helper.CalculateRank(u.totalScore + 20)
                          else Helper.CalculateRank(lost))
  {
  }

  /**
   * As written, a self-payout can store a rank that does not follow the stored score: at
   * score 90 (rank 1) and stake 10 the loser's copy recomputes rank 1, equal to the loaded
   * rank, so it is not written and the winner's rank 2 stays beside score 85.
   */
  lemma SelfPayoutBreaksRank()
    ensures var u := User(0, 0, 0, 90, 1);
            var r := PayoutUsers(map["p" := u], "p", "p", 10)["p"];
            && UserSound(u) && r.totalScore == 85 && r.rank == 2 && !UserSound(r)
  {
    var u := User(0, 0, 0, 90, 1);
    assert Helper.CalculateRank(90) == 1 && Helper.CalculateRank(85) == 1 && Helper.CalculateRank(110) == 2;
    PayoutAgainstSelf(map["p" := u], "p", 10);
  }

  /**
   * A payout keeps documents sound for a positive stake between two players: no count or
   * score goes negative, and each rank follows its score.
   */
  lemma PayoutKeepsSound(users: map<UserId, User>, winnerId: UserId, loserId: UserId, bet: int)
    requires winnerId in users && loserId in users && winnerId != loserId && bet > 0
    requires forall u :: u in users ==> UserSound(users[u])
    ensures var r := PayoutUsers(users, winnerId, loserId, bet);
            forall u :: u in r ==> UserSound(r[u])
  {
  }

  /**
   * The payout as evidently intended: a game needs two players, so a player paid out against
   * itself is refused.
   */
  function DistinctPayoutUsers(users: map<UserId, User>, winnerId: UserId, loserId: UserId, bet: int): (r: Option<map<UserId, User>>)
    requires winnerId in users && loserId in users
    ensures r.None? <==> winnerId == loserId
    ensures r.Some? ==> r.value.Keys == users.Keys
  {
    if winnerId == loserId then None else Some(PayoutUsers(users, winnerId, loserId, bet))
  }

  /** Whenever the intended payout pays a positive stake, every document stays sound. */
  lemma DistinctPayoutKeepsSound(users: map<UserId, User>, winnerId: UserId, loserId: UserId, bet: int)
    requires winnerId in users && loserId in users && bet > 0
    requires forall u :: u in users ==> UserSound(users[u])
    ensures var r := DistinctPayoutUsers(users, winnerId, loserId, bet);
            r.Some? ==> forall u :: u in r.value ==> UserSound(r.value[u])
  {
    if winnerId != loserId {
      PayoutKeepsSound(users, winnerId, loserId, bet);
    }
  }

  /**
   * A whole payout between two players keeps the store sound: the documents stay sound, and
   * the two rows it appends carry no payment id, so no deposit intent is added.
   */
  lemma PayoutKeepsStoreSound(s: Store, winnerId: UserId, loserId: UserId, bet: int, game: GameKind)
    requires winnerId in s.users && loserId in s.users && winnerId != loserId && bet > 0 && Sound(s)
    ensures Sound(Store(PayoutUsers(s.users, winnerId, loserId, bet),
                        s.rows + [WinRow(winnerId, loserId, bet, game, WinnerAfter(s.users[winnerId], bet).balance),
                                  LossRow(loserId, winnerId, bet, game, s.users[loserId].balance)]))
  {
    PayoutKeepsSound(s.users, winnerId, loserId, bet);
  }

  /** A win never lowers a rank, a loss never raises one. */
  lemma PayoutMovesRanks(u: User, bet: int)
    requires u.rank == Helper.CalculateRank(u.totalScore)
    ensures WinnerAfter(u, bet).rank >= u.rank
    ensures LoserAfter(u).rank <= u.rank
  {
    Helper.RankMonotone(u.totalScore, u.totalScore + WinPoints);
    if u.totalScore >= LossPoints {
      Helper.RankMonotone(LoserAfter(u).totalScore, u.totalScore);
    }
  }

  /** The winner's row: the winnings as a positive amount, the opponent, and the winner's new balance. */
  function WinRow(winnerId: UserId, loserId: UserId, bet: int, game: GameKind, balanceAfter: int): (row: Transaction)
    ensures Cast(Encode(row)) == Ok(row)
    ensures row.txType == GameWin && row.userId == winnerId && row.amount == 2 * bet
    ensures row.relatedUserId == Some(loserId) && row.balanceAfter == balanceAfter && row.paymentId.None?
  {
    CastEncode(Transaction(winnerId, GameWin, 2 * bet, GameWon(game, 2 * bet), Some(loserId), balanceAfter,
                           None, Pending, None, None));
    Transaction(winnerId, GameWin, 2 * bet, GameWon(game, 2 * bet), Some(loserId), balanceAfter, None, Pending, None, None)
  }

  /** The loser's row: the stake as a negative amount, the opponent, and the balance the loser was loaded with. */
  function LossRow(loserId: UserId, winnerId: UserId, bet: int, game: GameKind, balanceAfter: int): (row: Transaction)
    ensures Cast(Encode(row)) == Ok(row)
    ensures row.txType == GameLoss && row.userId == loserId && row.amount == -bet
    ensures row.relatedUserId == Some(winnerId) && row.balanceAfter == balanceAfter && row.paymentId.None?
  {
    CastEncode(Transaction(loserId, GameLoss, -bet, GameLost(game, bet), Some(winnerId), balanceAfter,
                           None, Pending, None, None));
    Transaction(loserId, GameLoss, -bet, GameLost(game, bet), Some(winnerId), balanceAfter, None, Pending, None, None)
  }
}
