/**
 * src/components/wallet/TransactionHistory.js: the wallet's list of ledger rows as fetched
 * (documents with their defaults filled in), the all/deposit/withdraw filter, and how each
 * row's type and status are labelled.
 */
module TransactionHistory {
  import opened Wrappers
  import opened JsValues
  import opened TransactionModel
  import Withdrawals
  import Games

  /**
   * The filter state: "all", or one `type` value. The screen's buttons only ever set
   * `AllRows`, "deposit" or "withdraw" (`IsButton`); `OnlyType("all")` has no counterpart
   * there, since the string "all" is what `AllRows` stands for.
   */
  datatype HistoryFilter = AllRows | OnlyType(name: string)

  const DepositsOnly: HistoryFilter := OnlyType("deposit")
  const WithdrawalsOnly: HistoryFilter := OnlyType("withdraw")

  predicate Shown(f: HistoryFilter, row: RawRow)
  {
    f.AllRows? || row.txType == Some(f.name)
  }

  /** The rows the list shows: all of them, or those whose `type` is the chosen one, in their order. */
  function FilterRows(rows: seq<RawRow>, f: HistoryFilter): (r: seq<RawRow>)
    ensures |r| <= |rows|
    ensures f.AllRows? ==> r == rows
    ensures forall k :: 0 <= k < |r| ==> Shown(f, r[k])
  {
    if rows == [] then []
    else
      var rest := FilterRows(rows[1..], f);
      if Shown(f, rows[0]) then [rows[0]] + rest else rest
  }

  /** A row is listed exactly when it is among the fetched rows and passes the filter. */
  lemma {:induction false} FilterMembership(rows: seq<RawRow>, f: HistoryFilter)
    ensures forall row :: row in FilterRows(rows, f) <==> row in rows && Shown(f, row)
  {
    if rows != [] {
      FilterMembership(rows[1..], f);
      assert rows == [rows[0]] + rows[1..];
    }
  }

  /** Filtering the filtered list changes nothing. */
  lemma {:induction false} FilterIdempotent(rows: seq<RawRow>, f: HistoryFilter)
    ensures FilterRows(FilterRows(rows, f), f) == FilterRows(rows, f)
  {
    if rows != [] {
      FilterIdempotent(rows[1..], f);
      var rest := FilterRows(rows[1..], f);
      if Shown(f, rows[0]) {
        assert ([rows[0]] + rest)[1..] == rest;
      }
    }
  }

  /** The filter works row by row, so it distributes over concatenation (a newer page of rows, say). */
  lemma {:induction false} FilterAppend(a: seq<RawRow>, b: seq<RawRow>, f: HistoryFilter)
    ensures FilterRows(a + b, f) == FilterRows(a, f) + FilterRows(b, f)
  {
    if a == [] {
      assert a + b == b;
    } else {
      var ab := a + b;
      assert ab != [] && ab[0] == a[0] && ab[1..] == a[1..] + b;
      FilterAppend(a[1..], b, f);
    }
  }

  /** Under the deposit filter only deposit rows are listed (no game, gift or withdraw row). */
  lemma DepositFilterShowsDeposits(rows: seq<RawRow>, k: nat)
    requires k < |FilterRows(rows, DepositsOnly)|
    ensures FilterRows(rows, DepositsOnly)[k].txType == Some("deposit")
  {
  }

  /** The three buttons of the screen: all, deposits, withdrawals. */
  predicate IsButton(f: HistoryFilter)
  {
    f == AllRows || f == DepositsOnly || f == WithdrawalsOnly
  }

  /** A game or gift row (any type but deposit and withdraw) is listed only under "all". */
  lemma {:induction false} OtherTypesOnlyUnderAll(rows: seq<RawRow>, f: HistoryFilter, row: RawRow)
    requires IsButton(f) && row in FilterRows(rows, f)
    requires row.txType != Some("deposit") && row.txType != Some("withdraw")
    ensures f == AllRows
  {
    FilterMembership(rows, f);
  }

  // ---------------------------------------------------------------- labels

  datatype Tone = Blue | Amber | Emerald | Red | Gray

  datatype TypeInfo = TypeInfo(caption: string, tone: Tone, sign: string)

  /** `getTypeInfo`: deposits are "+", withdrawals "-", every other type is a plain "transaction". */
  function TypeInfoOf(txType: Option<string>): (info: TypeInfo)
    ensures info.sign == "+" <==> txType == Some("deposit")
    ensures info.sign == "-" <==> txType == Some("withdraw")
    ensures txType != Some("deposit") && txType != Some("withdraw") ==> info == TypeInfo("تراکنش", Gray, "")
  {
    if txType == Some("deposit") then TypeInfo("واریز", Blue, "+")
    else if txType == Some("withdraw") then TypeInfo("برداشت", Amber, "-")
    else TypeInfo("تراکنش", Gray, "")
  }

  datatype StatusInfo = StatusInfo(caption: string, tone: Tone)

  const UnknownStatus: StatusInfo := StatusInfo("نامشخص", Gray)

  /**
   * `getStatusInfo`: a missing or empty status reads as completed; the four statuses of the
   * schema have their own labels and any other string is "unknown".
   */
  function StatusInfoOf(paymentStatus: Option<string>): (info: StatusInfo)
    ensures !Truthy(paymentStatus) ==> info == StatusInfo("موفق", Emerald)
    ensures Truthy(paymentStatus) && ParseStatus(paymentStatus.value).None? ==> info == UnknownStatus
    ensures info == UnknownStatus <==> Truthy(paymentStatus) && ParseStatus(paymentStatus.value).None?
  {
    var status := if Truthy(paymentStatus) then paymentStatus.value else "completed";
    if status == "completed" then StatusInfo("موفق", Emerald)
    else if status == "pending" then StatusInfo("در انتظار", Amber)
    else if status == "failed" then StatusInfo("ناموفق", Red)
    else if status == "cancelled" then StatusInfo("لغو شده", Gray)
    else UnknownStatus
  }

  /** The status badge is drawn only for a truthy `paymentStatus`. */
  predicate ShowsStatusBadge(row: RawRow)
  {
    Truthy(row.paymentStatus)
  }

  /** The balance-after figure is grey instead of green when the status is red or amber. */
  predicate BalanceGreyed(row: RawRow)
  {
    StatusInfoOf(row.paymentStatus).tone in {Red, Amber}
  }

  /** Each stored status gets its own label, distinct from the others and from "unknown". */
  lemma {:induction false} StatusLabelsDistinct(p: PaymentStatus, q: PaymentStatus)
    ensures StatusInfoOf(Some(StatusName(p))) != UnknownStatus
    ensures p != q ==> StatusInfoOf(Some(StatusName(p))).caption != StatusInfoOf(Some(StatusName(q))).caption
  {
    StatusNameRoundTrip(p);
    StatusNameRoundTrip(q);
  }

  /**
   * Every stored row carries a status, and its balance is greyed exactly when the row is
   * pending or failed: a credited deposit shows its balance green.
   */
  lemma StoredRowDisplay(t: Transaction)
    ensures ShowsStatusBadge(Encode(t))
    ensures BalanceGreyed(Encode(t)) <==> t.paymentStatus == Pending || t.paymentStatus == Failed
  {
  }

  /**
   * Withdraw and game rows are written without a status, so the schema stores them as
   * pending: the history labels every withdrawal and every game result "pending" and greys
   * its balance.
   */
  lemma UnsettledLooksPending(userId: UserId, other: UserId, amount: int, balance: int, game: GameKind)
    ensures var rows := [Withdrawals.WithdrawalRow(userId, amount, balance),
                         Games.WinRow(userId, other, amount, game, balance),
                         Games.LossRow(userId, other, amount, game, balance)];
            forall k :: 0 <= k < |rows| ==>
              StatusInfoOf(Encode(rows[k]).paymentStatus) == StatusInfo("در انتظار", Amber) && BalanceGreyed(Encode(rows[k]))
  {
  }
}
