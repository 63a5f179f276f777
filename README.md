# Wallet ledger of the wager-game app, in Dafny

The app lets players top up a wallet through the Oxapay crypto gateway, stake toman on
games, collect winnings and withdraw. This project models its wallet ledger and proves
properties of that model. The ledger has two parts:

- the user documents: balance, wins, losses, total score and rank;
- a table of transaction rows: deposits, withdrawals and game results.

`Ledger.Ledger` is a class holding both as fields: `users`, a map from user id to `User`,
and `rows`, a sequence of `Transaction`. Each route handler is one method of the class,
taken as one atomic step:

- the Oxapay webhook (`PaymentCallbackPost`);
- the browser's return URL (`PaymentCallbackGet`);
- the client's `verify` poll (`VerifyPayment`);
- deposit intent (`CreatePayment`);
- withdrawal (`Withdraw`);
- game payout (`Payout`).

Each settlement method is proved equal to a pure function on a `Store` value:
`PaymentCallback.Push`, `PaymentCallback.Return` or `VerifyPayment.Verify`. Each also keeps
the invariant `Store.Sound`: nothing negative, ranks follow scores, and deposit rows have
positive amounts.

Over those functions, `Reconciliation.RunLedger` is the reconciliation theorem. Take any
sequence of webhook, return-URL and `verify` calls, in any order and any number of times.
Then:

- no row is credited twice;
- only a row that was not completed is credited;
- a completed row never changes again;
- every balance ends at its start plus the amounts of the rows credited to its owner.

The pure parts are modelled as functions with lemmas:

- `validate-bet`;
- the rank ladder, square colour, Persian digits and greeting of `helper.js`;
- the schema of `Transaction.js`;
- the rank table of `Header.js`;
- the history filter and labels;
- the decision and retry logic of the payment-callback page.

The external parts are parameters:

- JWT verification is a `Credential`;
- the Nobitex price is a `PriceFeed`;
- the Oxapay invoice reply is an `InvoiceReply`;
- the Oxapay status check is a `StatusQuery`;
- the fresh payment id and the hour of the day are plain arguments.

The model follows the code where the code and its description could be read differently:

- The webhook and `verify` credit any row that is not completed, including rows already
  marked failed or cancelled. Only the return URL requires a pending row.
- The gateway word "expired" fails a row in the webhook but cancels it in `verify`
  (`Reconciliation.ExpiredDisagreement`).
- The webhook and the return URL read their status through JavaScript's `parseInt`. It
  skips leading white space, accepts a sign and a `0x` prefix, and reads the longest digit
  prefix, so `"2abc"` counts as paid.
- `verify`'s cancel and fail branches keep the row's stored track id.
- Payout credits the winner two stakes but does not debit the loser. Its `game_loss` row
  records the loser's unchanged balance.
- Withdraw and game rows are written without a `paymentStatus`, so the schema stores them
  as pending, and the history screen shows them as pending.
- The payment-callback page's retry bound does not hold as written (see Findings).
- Payout accepts a player against itself. Each save writes only the fields its copy of
  the document changed, so such a payout can leave a rank that does not follow the score
  (see Findings).

## Model

| member | source | states |
|---|---|---|
| JsValues.KeepTruthy | src/app/api/wallet/payment-callback/route.js:157 | a query parameter is kept exactly when it is truthy, and is then unchanged; a falsy one is dropped |
| JsValues.SpaceRun | src/app/api/wallet/payment-callback/route.js:44 | the leading white space `parseInt` skips: every skipped character is white space and the next is not |
| JsValues.TrimStart | src/app/api/wallet/payment-callback/route.js:44 | the result is a suffix of the input, does not start with white space, and only white space was dropped |
| JsValues.DigitRun | src/app/api/wallet/payment-callback/route.js:44 | the longest prefix of digits of the radix: all read characters are digits and the next is not |
| JsValues.NatText | src/app/api/wallet/payment-callback/route.js:44 | the decimal text of a number is non-empty and all digits |
| JsValues.NatTextValue | src/app/api/wallet/payment-callback/route.js:44 | the digits of the decimal text denote the number again |
| JsValues.ParseUnsignedDecimal | src/app/api/wallet/payment-callback/route.js:44 | a non-empty run of decimal digits is read whole as their value |
| JsValues.ParseUnsignedOfNatText | src/app/api/wallet/payment-callback/route.js:44 | the unsigned part of `parseInt` inverts decimal printing |
| JsValues.ParseIntOfWord | src/app/api/wallet/payment-callback/route.js:44 | a string starting with a letter ("paid", "cancelled", "expired") is NaN to `parseInt` |
| JsValues.ParseIntOfDigits | src/app/api/wallet/payment-callback/route.js:44 | text starting with a digit is read by the unsigned part alone |
| JsValues.ParseIntOfMinus | src/app/api/wallet/payment-callback/route.js:44 | a minus sign before digits negates their value |
| JsValues.ParseIntOfNatText | src/app/api/wallet/payment-callback/route.js:44 | `parseInt` of the decimal text of m is m, for every natural m; that text is JavaScript's `String(m)` only below 10^21 |
| JsValues.ParseIntOfNegative | src/app/api/wallet/payment-callback/route.js:44 | `parseInt` of the decimal text of a negative number -m, a minus sign and the digits of m, is -m (the text is `String(-m)` below 10^21) |
| JsValues.ParseIntTextLeading | src/app/api/wallet/payment-callback/route.js:44 | `parseInt` of text: after the white space, a decimal digit that does not open `0x` gives a non-negative number; nothing, or a letter, gives NaN |
| JsValues.ParseInt | src/app/api/wallet/payment-callback/route.js:44 | an absent field is NaN; a string is read by `parseInt`; an integer reads as `parseInt` of its decimal text reads |
| JsValues.ParseIntOfIntText | src/app/api/wallet/payment-callback/route.js:44 | `parseInt` of the decimal text of an integer is the integer, so an integer status field below 10^21 in magnitude may be read as itself |
| Helper.CalculateRank | src/helper/helper.js:60-69 | the rank is in 1..8, the score reaches its rung's floor and does not reach the next rung's floor |
| Helper.RankFloorIncreasing | src/helper/helper.js:58-59 | the ladder's floors 0, 100, ..., 3000 rise strictly |
| Helper.RankBoundaries | src/helper/helper.js:59-68 | floors are inclusive: 99→1, 100→2, 299→2, 300→3, 2999→7, 3000→8 |
| Helper.RankMonotone | src/helper/helper.js:61-68 | a higher score never gives a lower rank |
| Helper.GetSquareColor | src/helper/helper.js:33-46 | a square without a digit in second place is white; on the board a square is black exactly when file plus rank is even |
| Helper.SquareColorParity | src/helper/helper.js:33-46 | on the board a square is black exactly when file number plus rank is even |
| Helper.CornerColors | src/helper/helper.js:33-46 | a1 and h8 are black, h1 and a8 white |
| Helper.NeighboursDiffer | src/helper/helper.js:39-45 | squares one file or one rank apart have different colours |
| Helper.FarsiDigitsConsecutive | src/helper/helper.js:4 | the table holds the ten consecutive Persian digits from U+06F0 |
| Helper.ToFarsiDigits | src/helper/helper.js:7-10 | the substitution keeps the length and maps each character by the digit table |
| Helper.ToFarsiNumber | src/helper/helper.js:3-17 | a falsy input yields "۰", anything else the substitution of its rendering |
| Helper.FarsiDigitsReplaceAll | src/helper/helper.js:10 | no ASCII digit survives and every other character is kept |
| Helper.FarsiDigitInverse | src/helper/helper.js:10 | a character that is not a Persian digit is recovered from its substitution |
| Helper.FarsiDigitsRoundTrip | src/helper/helper.js:10 | text without Persian digits is recovered character by character |
| Helper.GreetingFor | src/helper/helper.js:19-31 | morning exactly on [5,12), noon on [12,17), evening on [17,21), night otherwise |
| TransactionModel.ParseTxType | src/models/Transaction.js:9-13 | exactly the seven type names are admitted, each as its own type |
| TransactionModel.TxTypeNameRoundTrip | src/models/Transaction.js:9-13 | every type's name is admitted as that type |
| TransactionModel.ParseStatus | src/models/Transaction.js:36-40 | exactly the four status names are admitted |
| TransactionModel.StatusNameRoundTrip | src/models/Transaction.js:36-40 | every status's name is admitted as that status |
| TransactionModel.Cast | src/models/Transaction.js:3-53 | a document is admitted iff its required paths are present and its enums hold; description defaults to blank, status to pending, nullable paths to null |
| TransactionModel.CastEncode | src/models/Transaction.js:3-53 | every stored row passes the schema again unchanged |
| TransactionModel.EncodeCast | src/models/Transaction.js:18-40 | an admitted document written back out is the document with its defaults filled in |
| TransactionModel.AbsentStatusIsPending | src/models/Transaction.js:36-40 | a document without `paymentStatus` is stored as pending |
| Store.FindOne | src/app/api/wallet/payment-callback/route.js:21-24 | `findOne`: the first matching row, and no earlier row matches; none iff no row matches |
| Store.FindOneSameKeys | src/app/api/wallet/payment-callback/route.js:21-24 | the lookup lands on the same row in any table with the same payment ids and gateways |
| Store.CreditOwner | src/app/api/wallet/payment-callback/route.js:53 | the owner's balance rises by the row's amount and no other document changes |
| Store.Settle | src/app/api/wallet/payment-callback/route.js:47-85 | a payment credits the owner and completes the row with the new balance (nothing when the owner is gone); a cancellation or failure re-marks the row and touches no balance |
| PaymentCallback.Classify | src/app/api/wallet/payment-callback/route.js:44-45 | a numeric status pays exactly at 1 or 2 and cancels exactly at 3; an absent status fails; the words "paid" and "success" pay and "cancelled" cancels |
| PaymentCallback.ClassifyNumber | src/app/api/wallet/payment-callback/route.js:44-45 | every number: 1 and 2 pay, 3 cancels, any other fails |
| PaymentCallback.ClassifyNumbers | src/app/api/wallet/payment-callback/route.js:44-66 | 1 and 2 pay, 3 cancels, 0 and an absent status fail |
| PaymentCallback.ClassifyWord | src/app/api/wallet/payment-callback/route.js:44-66 | a word is classified by spelling alone: "paid"/"success" pay, "cancelled" cancels, any other word fails |
| PaymentCallback.ClassifyWords | src/app/api/wallet/payment-callback/route.js:44-66 | "paid" and "success" pay, "cancelled" cancels, "expired" fails |
| PaymentCallback.Push | src/app/api/wallet/payment-callback/route.js:10-90 | 400 without both ids and 404 without an oxapay row, with no change; a completed row is untouched; a payment credits any non-completed row exactly once or gives 404 with no change when the owner is gone; cancel and fail re-mark the row, storing the track id, with no balance change |
| PaymentCallback.Return | src/app/api/wallet/payment-callback/route.js:97-161 | the error page without an order or row; otherwise a redirect carrying the truthy track id and status; the row changes only with a truthy status on a pending row, then it is credited, cancelled or failed with the URL's or the stored track id; a payment whose owner is gone changes nothing |
| VerifyPayment.VerifyTarget | src/app/api/wallet/verify-payment/route.js:30-44 | the oxapay row first, then any row with that payment id; none only when no row carries it |
| VerifyPayment.GatewayVerdict | src/app/api/wallet/verify-payment/route.js:105-149 | exactly "paid" credits, exactly "expired" and "cancelled" cancel, exactly "failed" fails; any other status settles nothing |
| VerifyPayment.Verify | src/app/api/wallet/verify-payment/route.js:22-165 | 400 without an order and 404 without a row; a completed row reports the owner's balance with no change; with no track id or no gateway answer nothing changes: a pending row reports pending, any other row reports not paid (cancelled or not) without a track id, a check error when the query throws and a gateway failure on a non-OK answer; "paid" credits the row with the track id used; "expired"/"cancelled" cancel and "failed" fails with no balance change; any other status leaves the row |
| Reconciliation.WebhookFrame | src/app/api/wallet/payment-callback/route.js:35-85 | a webhook keeps completed rows and row keys; it credits at most one non-completed deposit row, completing it with the owner's new balance |
| Reconciliation.ReturnFrame | src/app/api/wallet/payment-callback/route.js:119-155 | the same for the return URL |
| Reconciliation.PollFrame | src/app/api/wallet/verify-payment/route.js:47-138 | the same for `verify` |
| Reconciliation.StepFrame | src/app/api/wallet/payment-callback/route.js:35-60 | every call of any channel has that shape |
| Reconciliation.RunLedger | src/app/api/wallet/payment-callback/route.js:35-60 | over any sequence of calls, the credit log has no duplicates and each credited row was not completed at the start and is at the end; completed rows are unchanged; every balance is its start plus the amounts credited to its owner |
| Reconciliation.StepKeepsSound | src/app/api/wallet/payment-callback/route.js:53-58 | each channel keeps the store sound |
| Reconciliation.RunKeepsSound | src/app/api/wallet/payment-callback/route.js:53-58 | any sequence of channel calls keeps the store sound |
| Reconciliation.WebhookReplay | src/app/api/wallet/payment-callback/route.js:35-40 | a webhook delivered again after it credited finds the row completed and changes nothing |
| Reconciliation.CreditedRowIsPolled | src/app/api/wallet/verify-payment/route.js:30-44 | `verify`, asked about the payment id of a row any channel credited, looks up that same row |
| Reconciliation.PollAfterCredit | src/app/api/wallet/verify-payment/route.js:47-54 | after any channel credits a row, `verify` on it reports success with the owner's balance and changes nothing |
| Reconciliation.ExpiredDisagreement | src/app/api/wallet/verify-payment/route.js:131-133 | "expired" fails the row in the webhook and cancels it in `verify` |
| Games.ValidateBet | src/app/api/games/validate-bet/route.js:9-62 | 401 without a verifying token, 400 without a bet or for a negative one; zero is a free game; for a positive stake, 404 without the caller, otherwise valid with the balance iff the balance covers it, and else invalid with balance, stake and shortage = stake - balance |
| Games.GameOf | src/app/api/games/payout/route.js:59 | "tictactoe" and "chess" name their games, anything else rock-paper-scissors |
| Games.WinnerAfter | src/app/api/games/payout/route.js:38-44 | the winner's edited document: two stakes more, one more win, 20 points more, the rank of the new score, losses kept; sound stays sound |
| Games.LoserAfter | src/app/api/games/payout/route.js:46-49 | the loser's edited document: balance and wins kept, one more loss, 5 points off but never below 0, the rank of the new score; sound stays sound |
| Games.SaveModified | src/app/api/games/payout/route.js:51-52 | `save()` of a document edited since it was loaded: each path takes the edited value when it differs from the loaded one and otherwise keeps the stored value; onto the document as loaded it stores the edit; with nothing changed it stores nothing |
| Games.PayoutUsers | src/app/api/games/payout/route.js:27-52 | the payout touches only the two players' documents and keeps every key; for two distinct players, the winner's and the loser's edited documents are stored |
| Games.PayoutBetweenTwo | src/app/api/games/payout/route.js:38-49 | between two players the winner gains two stakes, a win and 20 points; the loser keeps its balance, gains a loss and loses 5 points but not below 0; both ranks follow the new scores |
| Games.PayoutAgainstSelf | src/app/api/games/payout/route.js:27-52 | a player paid out against itself keeps the two stakes, the win and the loss; the score is the loser's unless the loaded score was 0 (then the winner's 20 stay); the rank is the loser's recomputed rank unless that equals the loaded rank (then the winner's rank stays) |
| Games.SelfPayoutBreaksRank | src/app/api/games/payout/route.js:27-52 | a sound user with score 90 and rank 1, paid out against itself with stake 10, is stored with score 85 and rank 2, which is not sound |
| Games.PayoutKeepsSound | src/app/api/games/payout/route.js:38-49 | for a positive stake between two distinct players every document stays sound |
| Games.DistinctPayoutUsers | src/app/api/games/payout/route.js:27-52 | the intended payout refuses exactly a player against itself and keeps every key |
| Games.DistinctPayoutKeepsSound | src/app/api/games/payout/route.js:38-52 | whenever the intended payout pays a positive stake, every document stays sound |
| Games.PayoutKeepsStoreSound | src/app/api/games/payout/route.js:38-72 | a whole payout between two distinct players keeps the store sound |
| Games.PayoutMovesRanks | src/app/api/games/payout/route.js:44-49 | a win never lowers a rank and a loss never raises one |
| Games.WinRow | src/app/api/games/payout/route.js:55-62 | a valid `game_win` row of two stakes against the loser, with the winner's new balance |
| Games.LossRow | src/app/api/games/payout/route.js:65-72 | a valid `game_loss` row of minus the stake against the winner, with the loser's balance |
| PaymentRequest.MinimumInToman | src/app/api/wallet/create-payment/route.js:59-74 | at a positive price the amount is below 0.01 USDT iff 1000 times it is below the rial price |
| PaymentRequest.NegativePriceBlocks | src/app/api/wallet/create-payment/route.js:59-74 | at a negative price every positive amount is below the minimum |
| PaymentRequest.Admit | src/app/api/wallet/create-payment/route.js:15-82 | admitted iff the token verifies, the amount is positive, the price is available, the 0.01 USDT minimum is met and the user exists; each refusal is the first check that fails: no token or a bad token (401), a missing or non-positive amount (400), no price (500), below the minimum (400), no user (404) |
| PaymentRequest.PendingDeposit | src/app/api/wallet/create-payment/route.js:103-112 | a valid pending deposit row for the amount, the order id and oxapay, recording the current balance |
| PaymentRequest.InvoiceOutcome | src/app/api/wallet/create-payment/route.js:127-163 | the link is returned iff the invoice status is 200 with a payment URL; an exception is the transport error |
| Withdrawals.CheckWithdraw | src/app/api/wallet/withdraw/route.js:15-49 | admitted iff the token verifies, the amount is at least 100000, the user exists and the balance covers it; each refusal is the first check that fails: no token or a bad token (401), a missing or non-positive amount (400), under 100000 whatever the balance (400), no user (404), too small a balance (400) |
| Withdrawals.WithdrawalRow | src/app/api/wallet/withdraw/route.js:55-61 | a valid `withdraw` row of the amount with the new balance, no payment id, stored as pending |
| Ledger.Ledger.SettleRow | src/app/api/wallet/payment-callback/route.js:47-85 | the in-place write of a decided verdict equals `Store.Settle` |
| Ledger.Ledger.PaymentCallbackPost | src/app/api/wallet/payment-callback/route.js:10-90 | new state and reply are `Push` of the old state; soundness is kept |
| Ledger.Ledger.PaymentCallbackGet | src/app/api/wallet/payment-callback/route.js:97-161 | new state and redirect are `Return` of the old state; soundness is kept |
| Ledger.Ledger.VerifyPayment | src/app/api/wallet/verify-payment/route.js:22-165 | new state and reply are `Verify` of the old state; soundness is kept |
| Ledger.Ledger.CreatePayment | src/app/api/wallet/create-payment/route.js:15-163 | no balance changes; a refused request adds no row; an admitted one appends the pending deposit row, holding the track id when the invoice is accepted and marked failed otherwise |
| Ledger.Ledger.Withdraw | src/app/api/wallet/withdraw/route.js:15-67 | a refused request changes nothing; an admitted one lowers the caller's balance by exactly the amount, leaving it non-negative, and appends one withdraw row with the new balance, which is also the reply |
| Ledger.Ledger.SavePlayers | src/app/api/games/payout/route.js:27-52 | the two saves, each writing only the paths its document changed, give `PayoutUsers` and return the balances the rows record |
| Ledger.Ledger.Payout | src/app/api/games/payout/route.js:12-78 | 400 without the three ids, a free game without a positive stake, 404 without both players, each with no change; otherwise `PayoutUsers` and exactly the `game_win` and `game_loss` rows appended, replying the winner's stored balance; the store stays sound except after a payout of a player against itself |
| Header.RanksInOrder | src/components/header/Header.js:10-19 | eight entries, entry k is rank k + 1 |
| Header.UserRank | src/components/header/Header.js:30-31 | ranks 1..8 show their own entry; absent, zero and out-of-range ranks show the first |
| Header.ComputedRankShown | src/components/header/Header.js:31 | every rank computed from a score is shown as itself |
| Header.OutOfRangeFallsBack | src/components/header/Header.js:31 | 9, -1 and an absent rank show the first entry |
| TransactionHistory.FilterRows | src/components/wallet/TransactionHistory.js:11-16 | "all" keeps the list; every listed row passes the filter; never longer than the input |
| TransactionHistory.FilterMembership | src/components/wallet/TransactionHistory.js:15 | a row is listed iff it was fetched and its type matches |
| TransactionHistory.FilterIdempotent | src/components/wallet/TransactionHistory.js:15 | filtering twice is filtering once |
| TransactionHistory.FilterAppend | src/components/wallet/TransactionHistory.js:15 | the filter distributes over concatenation, so it keeps the rows' order |
| TransactionHistory.DepositFilterShowsDeposits | src/components/wallet/TransactionHistory.js:15 | under the deposit filter only deposit rows are listed |
| TransactionHistory.OtherTypesOnlyUnderAll | src/components/wallet/TransactionHistory.js:9 | with the three buttons, a game or gift row is listed only under "all" |
| TransactionHistory.TypeInfoOf | src/components/wallet/TransactionHistory.js:121-154 | the sign is "+" iff deposit and "-" iff withdraw; every other type is a grey "transaction" with no sign |
| TransactionHistory.StatusInfoOf | src/components/wallet/TransactionHistory.js:156-200 | a missing status reads as completed; an unrecognised one, and only that, is "unknown" |
| TransactionHistory.StatusLabelsDistinct | src/components/wallet/TransactionHistory.js:156-200 | the four stored statuses have four different labels, none of them "unknown" |
| TransactionHistory.StoredRowDisplay | src/components/wallet/TransactionHistory.js:241-293 | every stored row shows a badge; its balance is greyed iff the row is pending or failed |
| TransactionHistory.UnsettledLooksPending | src/components/wallet/TransactionHistory.js:167-174 | withdraw, game_win and game_loss rows all show as pending with a greyed balance |
| CallbackPage.RequestFor | src/app/payment-callback/page.js:18-28 | no request iff there is no order id; otherwise the page's order id, and its own track id and status exactly when they are truthy |
| CallbackPage.Decide | src/app/payment-callback/page.js:32-65 | success celebrates; pending retries iff the counter is under 5, as attempt counter + 1, and gives up otherwise; any other answer fails; an exception is an error |
| CallbackPage.DecisionEffects | src/app/payment-callback/page.js:32-65 | the status each decision shows and its navigation: paid wallet after 1500 ms, wallet after 3000 ms, failed wallet after 2000 ms, none on a retry or an exception |
| CallbackPage.PageFollowsVerify | src/app/payment-callback/page.js:32-61 | the page celebrates exactly the replies `verify` marks successful and polls on exactly the pending ones |
| CallbackPage.RetriesBounded | src/app/payment-callback/page.js:38-47 | with a live counter a run retries at most five times in all |
| CallbackPage.PendingRunGivesUp | src/app/payment-callback/page.js:38-54 | with a live counter a payment that stays pending is retried up to attempt 5 and then abandoned |
| CallbackPage.GivesUpOnSixthPoll | src/app/payment-callback/page.js:38-54 | from zero, six pending answers give attempts 1 to 5 and then give up |
| CallbackPage.StaleGuardNeverGivesUp | src/app/payment-callback/page.js:40-47 | as written, every pending answer is retried as attempt 1 and the page never gives up |
| CallbackPage.StaleGuardExceedsBound | src/app/payment-callback/page.js:40-47 | six pending answers: six retries as written against five with a live counter |
| CallbackPage.PaymentCallbackPage.constructor | src/app/payment-callback/page.js:11-13 | the page starts verifying with a zero counter |
| CallbackPage.PaymentCallbackPage.Start | src/app/payment-callback/page.js:18-28 | builds the request of `RequestFor`, showing the error when there is none; the counter is unchanged |
| CallbackPage.PaymentCallbackPage.OnOutcome | src/app/payment-callback/page.js:32-65 | acts as `Decide` on the current counter, shows its status, raises the counter only on a retry, and keeps it within 0..5 |

## Left out

- Database access, JWT verification, HTTP and the Nobitex and Oxapay endpoints are not modelled as I/O. Their results are parameters: `Credential`, `PriceFeed`, `InvoiceReply`, `StatusQuery`, and the fresh payment id.
- Concurrency is left out. Handlers are atomic steps taken one at a time. The real handlers read, modify and write Mongo documents without transactions, so concurrent requests could lose updates; no linearizability is claimed.
- Each handler's outer `catch` is left out: it turns a database error into a generic 500, and in the return handler into a redirect to `/wallet?payment=error` (src/app/api/wallet/payment-callback/route.js:158-159). The model's store operations cannot fail.
- PaymentRequest.BelowUsdtMinimum: the price is an exact `real`. The rial-to-toman division and the `toFixed(6)` rounding of the USDT amount are not modelled, and NaN is modelled only as a missing price. An amount within rounding of 0.01 USDT may therefore be judged differently from the running handler.
- ParseIntOfIntText, ParseIntOfNatText, ParseIntOfNegative: they are about the decimal text `IntText`/`NatText`, which is JavaScript's `String` only below 10^21 in magnitude. From 10^21 on, `String` writes exponent form (`2e21` is "2e+21"), so `parseInt` reads only its leading digit. `JsValues.ParseInt` instead reads every `Num` as itself, so for a numeric status of 10^21 or more the model can classify differently from the handler (`2e21` pays there and fails here).
- A JSON status that is an array, a boolean or `null` is not modelled (`BodyValue` has only absent, integer and string); `parseInt([1])` is 1, so such an array pays in the handler.
- JSON numbers in request bodies are modelled as integers (`BodyValue.Num`). Fractional and exponent-form numbers are not modelled: a status of 1.5, which `parseInt` reads as 1 and so pays, has no counterpart. Track ids and order ids are strings; a numeric id (the falsy number 0, say) is not modelled.
- Amounts and bets are integers. A string, fractional or NaN amount in a request body is not modelled. The `|| 0` defaults of the handlers (`balance` in withdraw and payout, and `wins`, `losses` and `totalScore` at src/app/api/games/payout/route.js:39-48) read the stored field: a `User` always carries all five fields.
- Descriptions and messages are modelled as kinds with their amount (`Description`, the reply datatypes), not as Persian text.
- The schema reports only the first rule a document breaks, in a fixed order. `createdAt`, ObjectId casting and Mongoose's error aggregation are not modelled.
- `toLocaleString`'s digit grouping in `toFarsiNumber` is not modelled. The input is taken as already rendered text. `idGenerator` and `verifyToken` in `helper.js` are not part of this model.
- The hour in `getGreeting` is a parameter, not the clock.
- `verify` reads a `status` query parameter that it never uses, so the model omits it. The page's request still carries it (`CallbackPage.RequestFor`).
- Only create-payment, withdraw and validate-bet authenticate the caller. Create-payment and withdraw take the token from the cookie or the `Authorization` header; validate-bet takes it from the header only. The model sees only the resulting `Credential`. The payout, payment-callback and verify-payment handlers read no token, so anyone can call them; the model's payout accepts any ids as the handler does.
- Ledger.Ledger.Payout: soundness is promised only when the payout is not of a player against itself: the as-written self-payout can store a rank that does not follow the score (see Findings). `save()` is modelled as writing the paths whose new value differs from the loaded one (`Games.SaveModified`); Mongoose's version key, validation and middleware are not modelled.
- CallbackPage.PaymentCallbackPage: the class reads its counter where it is kept, as the guard intends. It does not claim the page as written keeps the bound; see Findings for what the page as written does. Timers, the 2000 ms retry delay, `message` texts and rendering are not modelled.
- Reconciliation.RunLedger covers the three settlement channels. Create-payment appends rows and withdraw or payout change balances too; those methods are proved separately against their own contracts and keep `Sound`, but they are not in the interleaving theorem.
- The history screen's rendering is not modelled: icons, dates, `toFarsiNumber` of amounts and descriptions, and loading states. Only the filter and the type and status mappings are modelled.
- Helper.GetSquareColor: a square is read as a sequence of Unicode code points, whereas JavaScript's `charAt` reads UTF-16 code units; the two differ only for characters outside the Basic Multilingual Plane (for "\u{1F600}2" JavaScript takes a surrogate as the digit position and answers white, the model reads '2' and answers black). Board squares are plain ASCII, so the parity rule is unaffected.

## Findings

| source | as written | input that shows it | evidently intended | confidence | as-written member | corrected member |
|---|---|---|---|---|---|---|
| src/app/payment-callback/page.js:40-47 | the retry callback is the closure of the effect's first run, so `retryCount < maxRetries` always reads 0 and the message always says attempt 1 of 5 | six (or more) `verify` replies with `pending: true`: the page schedules a sixth retry and keeps polling for as long as the payment stays pending | at most five retries, then the "timed out" error and the navigation back to the wallet | not executed | CallbackPage.StaleGuardExceedsBound | CallbackPage.GivesUpOnSixthPoll |
| src/app/api/games/payout/route.js:27-52 | a player may be paid out against itself; both copies of the document are loaded before either save, and the loser's save writes only the paths its copy changed, so the winner's rank (or, at score 0, the winner's score) survives beside the loser's score | one user with score 90 and rank 1, `winnerId == loserId`, stake 10: stored score 85 with rank 2 | a game between two distinct players, so every stored rank follows its stored score | not executed | Games.SelfPayoutBreaksRank | Games.DistinctPayoutKeepsSound |
