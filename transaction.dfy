/**
 * The ledger row of src/models/Transaction.js. `Transaction` is a row as the schema admits it
 * (enums resolved, defaults filled in); `RawRow` is the document a handler hands to
 * `Transaction.create`, or the JSON the history screen receives, with every field optional.
 * `Cast` is the schema: required fields, enum checks and defaults.
 */
module TransactionModel {
  import opened Wrappers

  type UserId = string

  /** The gateway tag every deposit row carries. */
  const Oxapay: string := "oxapay"

  datatype TxType = Deposit | Withdraw | GiftSent | GiftReceived | GameBet | GameWin | GameLoss

  datatype PaymentStatus = Pending | Completed | Failed | Cancelled

  /** The game named in payout descriptions: "tictactoe", "chess", anything else. */
  datatype GameKind = TicTacToe | Chess | RockPaperScissors

  /**
   * The human-readable `description` of a row. The handlers interpolate an amount into
   * fixed Persian sentences; the model keeps which sentence and which amount.
   */
  datatype Description =
    | Blank
    | DepositAwaiting(amount: int, testMode: bool)
    | DepositPaid(amount: int)
    | DepositCancelled(amount: int)
    | DepositFailed(amount: int)
    | Withdrawal(amount: int)
    | GameWon(game: GameKind, amount: int)
    | GameLost(game: GameKind, amount: int)

  datatype Transaction = Transaction(
    userId: UserId,
    txType: TxType,
    amount: int,
    description: Description,
    relatedUserId: Option<UserId>,
    balanceAfter: int,
    paymentId: Option<string>,
    paymentStatus: PaymentStatus,
    gateway: Option<string>,
    gatewayTransactionId: Option<string>)

  function TxTypeName(t: TxType): string
  {
    match t
    case Deposit => "deposit"
    case Withdraw => "withdraw"
    case GiftSent => "gift_sent"
    case GiftReceived => "gift_received"
    case GameBet => "game_bet"
    case GameWin => "game_win"
    case GameLoss => "game_loss"
  }

  /** The `enum` check of `type`: exactly the seven names are admitted. */
  function ParseTxType(s: string): (r: Option<TxType>)
    ensures r.Some? ==> TxTypeName(r.value) == s
    ensures r.None? ==> forall t: TxType :: TxTypeName(t) != s
  {
    if s == "deposit" then Some(Deposit)
    else if s == "withdraw" then Some(Withdraw)
    else if s == "gift_sent" then Some(GiftSent)
    else if s == "gift_received" then Some(GiftReceived)
    else if s == "game_bet" then Some(GameBet)
    else if s == "game_win" then Some(GameWin)
    else if s == "game_loss" then Some(GameLoss)
    else None
  }

  lemma TxTypeNameRoundTrip(t: TxType)
    ensures ParseTxType(TxTypeName(t)) == Some(t)
  {
  }

  function StatusName(p: PaymentStatus): string
  {
    match p
    case Pending => "pending"
    case Completed => "completed"
    case Failed => "failed"
    case Cancelled => "cancelled"
  }

  /** The `enum` check of `paymentStatus`. */
  function ParseStatus(s: string): (r: Option<PaymentStatus>)
    ensures r.Some? ==> StatusName(r.value) == s
    ensures r.None? ==> forall p: PaymentStatus :: StatusName(p) != s
  {
    if s == "pending" then Some(Pending)
    else if s == "completed" then Some(Completed)
    else if s == "failed" then Some(Failed)
    else if s == "cancelled" then Some(Cancelled)
    else None
  }

  lemma StatusNameRoundTrip(p: PaymentStatus)
    ensures ParseStatus(StatusName(p)) == Some(p)
  {
  }

  /** A row document before the schema has been applied. */
  datatype RawRow = RawRow(
    userId: Option<UserId>,
    txType: Option<string>,
    amount: Option<int>,
    description: Option<Description>,
    relatedUserId: Option<UserId>,
    balanceAfter: Option<int>,
    paymentId: Option<string>,
    paymentStatus: Option<string>,
    gateway: Option<string>,
    gatewayTransactionId: Option<string>)

  /** A raw row with every optional field left out. */
  const EmptyRaw: RawRow := RawRow(None, None, None, None, None, None, None, None, None, None)

  /** The path of the first schema rule a document breaks. */
  datatype SchemaError = Required(path: string) | NotInEnum(path: string)

  /** The four `required: true` paths are present (a required string may not be empty). */
  predicate HasRequired(raw: RawRow)
  {
    raw.userId.Some? && raw.txType.Some? && raw.txType.value != ""
    && raw.amount.Some? && raw.balanceAfter.Some?
  }

  /** Both `enum` paths hold an admitted name, or `paymentStatus` is absent. */
  predicate InEnums(raw: RawRow)
  {
    (raw.txType.Some? ==> ParseTxType(raw.txType.value).Some?)
    && (raw.paymentStatus.Some? ==> ParseStatus(raw.paymentStatus.value).Some?)
  }

  /**
   * The schema: a document is admitted exactly when its required paths are present and its
   * enum paths hold admitted names. `description` defaults to blank and `paymentStatus` to
   * pending; the nullable paths keep what was given (`null` when absent).
   */
  function Cast(raw: RawRow): (r: Result<Transaction, SchemaError>)
    ensures r.Ok? <==> HasRequired(raw) && InEnums(raw)
    ensures r.Ok? ==> && r.value.userId == raw.userId.value
                      && TxTypeName(r.value.txType) == raw.txType.value
                      && r.value.amount == raw.amount.value
                      && r.value.balanceAfter == raw.balanceAfter.value
                      && r.value.description == (if raw.description.Some? then raw.description.value else Blank)
                      && (raw.paymentStatus.None? ==> r.value.paymentStatus == Pending)
                      && (raw.paymentStatus.Some? ==> StatusName(r.value.paymentStatus) == raw.paymentStatus.value)
                      && r.value.relatedUserId == raw.relatedUserId
                      && r.value.paymentId == raw.paymentId
                      && r.value.gateway == raw.gateway
                      && r.value.gatewayTransactionId == raw.gatewayTransactionId
  {
    if raw.userId.None? then Err(Required("userId"))
    else if raw.txType.None? || raw.txType.value == "" then Err(Required("type"))
    else if ParseTxType(raw.txType.value).None? then Err(NotInEnum("type"))
    else if raw.amount.None? then Err(Required("amount"))
    else if raw.balanceAfter.None? then Err(Required("balanceAfter"))
    else if raw.paymentStatus.Some? && ParseStatus(raw.paymentStatus.value).None? then Err(NotInEnum("paymentStatus"))
    else
      Ok(Transaction(
        raw.userId.value,
        ParseTxType(raw.txType.value).value,
        raw.amount.value,
        if raw.description.Some? then raw.description.value else Blank,
        raw.relatedUserId,
        raw.balanceAfter.value,
        raw.paymentId,
        if raw.paymentStatus.Some? then ParseStatus(raw.paymentStatus.value).value else Pending,
        raw.gateway,
        raw.gatewayTransactionId))
  }

  /** A stored row as a document: every path written out. */
  function Encode(t: Transaction): RawRow
  {
    RawRow(Some(t.userId), Some(TxTypeName(t.txType)), Some(t.amount), Some(t.description),
           t.relatedUserId, Some(t.balanceAfter), t.paymentId, Some(StatusName(t.paymentStatus)),
           t.gateway, t.gatewayTransactionId)
  }

  /** Every stored row passes the schema again unchanged. */
  lemma CastEncode(t: Transaction)
    ensures Cast(Encode(t)) == Ok(t)
  {
    TxTypeNameRoundTrip(t.txType);
    StatusNameRoundTrip(t.paymentStatus);
  }

  /** An admitted document, written back out, is the document with its defaults filled in. */
  lemma {:induction false} EncodeCast(raw: RawRow)
    requires Cast(raw).Ok?
    ensures Encode(Cast(raw).value) == raw.(
      description := Some(if raw.description.Some? then raw.description.value else Blank),
      paymentStatus := Some(if raw.paymentStatus.Some? then raw.paymentStatus.value else "pending"))
  {
  }

  /** A document that leaves out `paymentStatus` (withdraw and game rows) is stored as pending. */
  lemma {:induction false} AbsentStatusIsPending(raw: RawRow)
    requires HasRequired(raw) && InEnums(raw) && raw.paymentStatus.None?
    ensures Cast(raw).Ok? && Cast(raw).value.paymentStatus == Pending
  {
  }
}
