/**
 * The three settlement channels together. A deposit row can be settled by the gateway's
 * webhook, by the browser's return URL and by the client's polling of `verify`, in any
 * order and any number of times. The theorem of this module: whatever the sequence,
 * each row is credited at most once, only a row that was not completed is credited, every
 * balance ends at its start plus the amounts of the rows credited to it, and a completed
 * row never changes again.
 */
module Reconciliation {
  import opened Wrappers
  import opened JsValues
  import opened TransactionModel
  import opened Store
  import opened PaymentCallback
  import opened VerifyPayment

  /** One request to one of the three channels, with its parameters and the gateway's answer. */
  datatype ChannelCall =
    | Webhook(trackId: Option<string>, orderId: Option<string>, signal: BodyValue)
    | BrowserReturn(orderId: Option<string>, trackId: Option<string>, status: Option<string>)
    | Poll(orderId: Option<string>, trackId: Option<string>, query: StatusQuery)

  /** The store after one call (the requests are taken one at a time). */
  function Step(s: Store, c: ChannelCall): Store
  {
    match c
    case Webhook(trackId, orderId, status) => Push(s, trackId, orderId, status).0
    case BrowserReturn(orderId, trackId, status) => Return(s, orderId, trackId, status).0
    case Poll(orderId, trackId, query) => Verify(s, orderId, trackId, query).0
  }

  /** The store after a sequence of calls. */
  function Run(s: Store, calls: seq<ChannelCall>): Store
    decreases |calls|
  {
    if calls == [] then s else Run(Step(s, calls[0]), calls[1..])
  }

  /** Whether the return URL credits: a truthy payment status on a pending row whose owner exists. */
  predicate ReturnCredits(s: Store, orderId: Option<string>, status: Option<string>)
  {
    && ReturnTarget(s.rows, orderId).Some?
    && var row := s.rows[ReturnTarget(s.rows, orderId).value];
       Truthy(status) && row.paymentStatus == Pending && StatusVerdict(status) == Paid && row.userId in s.users
  }

  /** The row a call credits, if it credits one. */
  function StepCredit(s: Store, c: ChannelCall): Option<nat>
  {
    match c
    case Webhook(trackId, orderId, status) =>
      if Push(s, trackId, orderId, status).1 == Credited then PushTarget(s.rows, trackId, orderId) else None
    case BrowserReturn(orderId, trackId, status) =>
      if ReturnCredits(s, orderId, status) then ReturnTarget(s.rows, orderId) else None
    case Poll(orderId, trackId, query) =>
      if Verify(s, orderId, trackId, query).1.VerifiedPaid? then VerifyTarget(s.rows, orderId) else None
  }

  /** A log with the row credited by one more call, if any, in front. */
  function Prepend(credit: Option<nat>, log: seq<nat>): seq<nat>
  {
    match credit
    case None => log
    case Some(i) => [i] + log
  }

  /** The rows credited along a sequence of calls, in order. */
  function CreditLog(s: Store, calls: seq<ChannelCall>): seq<nat>
    decreases |calls|
  {
    if calls == [] then [] else Prepend(StepCredit(s, calls[0]), CreditLog(Step(s, calls[0]), calls[1..]))
  }

  /** The total credited to user `u` by the rows of `log` (amounts and owners read from `rows`). */
  function CreditTotal(rows: seq<Transaction>, log: seq<nat>, u: UserId): int
  {
    if log == [] then 0
    else
      var own := if log[0] < |rows| && rows[log[0]].userId == u then rows[log[0]].amount else 0;
      own + CreditTotal(rows, log[1..], u)
  }

  predicate NoDuplicates(log: seq<nat>)
  {
    forall j, k :: 0 <= j < k < |log| ==> log[j] != log[k]
  }

  /**
   * What one call may do, whatever it is: the row keys stay, a completed row stays as it is,
   * and either no balance changes or exactly one row, not completed before, is credited to
   * its owner and completed with the owner's new balance recorded as `balanceAfter`.
   */
  ghost predicate StepShape(s: Store, t: Store, credit: Option<nat>)
  {
    && SameKeys(s.rows, t.rows)
    && (forall k :: 0 <= k < |s.rows| && s.rows[k].paymentStatus == Completed ==> t.rows[k] == s.rows[k])
    && (credit.None? ==> t.users == s.users)
    && (credit.Some? ==>
          var i := credit.value;
          && i < |s.rows| && s.rows[i].paymentStatus != Completed && s.rows[i].userId in s.users
          && s.rows[i].paymentId.Some?
          && t.users == CreditOwner(s.users, s.rows[i])
          && t.rows[i].paymentStatus == Completed
          && t.rows[i].balanceAfter == t.users[s.rows[i].userId].balance)
  }

  lemma CreditedShape(s: Store, t: Store, i: nat, trackId: Option<string>)
    requires CreditedRow(s, t, i, trackId) && s.rows[i].paymentStatus != Completed && s.rows[i].paymentId.Some?
    ensures StepShape(s, t, Some(i))
  {
  }

  lemma SettledShape(s: Store, t: Store, i: nat, status: PaymentStatus, trackId: Option<string>)
    requires SettledRow(s, t, i, status, trackId) && s.rows[i].paymentStatus != Completed
    ensures StepShape(s, t, None)
  {
  }

  lemma UnchangedShape(s: Store)
    ensures StepShape(s, s, None)
  {
  }

  lemma WebhookFrame(s: Store, trackId: Option<string>, orderId: Option<string>, status: BodyValue)
    ensures var c := Webhook(trackId, orderId, status);
            StepShape(s, Step(s, c), StepCredit(s, c))
  {
    var t := Push(s, trackId, orderId, status).0;
    var reply := Push(s, trackId, orderId, status).1;
    if reply in {InvalidPayload, RowNotFound, AlreadyCompleted, PushReply.OwnerNotFound} {
      UnchangedShape(s);
    } else {
      var i := PushTarget(s.rows, trackId, orderId).value;
      if reply == Credited {
        CreditedShape(s, t, i, trackId);
      } else if reply == MarkedCancelled {
        SettledShape(s, t, i, Cancelled, trackId);
      } else {
        SettledShape(s, t, i, Failed, trackId);
      }
    }
  }

  lemma ReturnFrame(s: Store, orderId: Option<string>, trackId: Option<string>, status: Option<string>)
    ensures var c := BrowserReturn(orderId, trackId, status);
            StepShape(s, Step(s, c), StepCredit(s, c))
  {
    var t := Return(s, orderId, trackId, status).0;
    if ReturnTarget(s.rows, orderId).None? {
      UnchangedShape(s);
    } else {
      var i := ReturnTarget(s.rows, orderId).value;
      var row := s.rows[i];
      var actual := Or(trackId, row.gatewayTransactionId);
      var v := StatusVerdict(status);
      if !(Truthy(status) && row.paymentStatus == Pending) || (v == Paid && row.userId !in s.users) {
        UnchangedShape(s);
      } else if v == Paid {
        CreditedShape(s, t, i, actual);
      } else if v == Cancel {
        SettledShape(s, t, i, Cancelled, actual);
      } else {
        SettledShape(s, t, i, Failed, actual);
      }
    }
  }

  lemma PollFrame(s: Store, orderId: Option<string>, trackId: Option<string>, query: StatusQuery)
    ensures var c := Poll(orderId, trackId, query);
            StepShape(s, Step(s, c), StepCredit(s, c))
  {
    var t := Verify(s, orderId, trackId, query).0;
    var target := VerifyTarget(s.rows, orderId);
    if target.None? {
      UnchangedShape(s);
    } else {
      var i := target.value;
      var row := s.rows[i];
      var actual := Or(trackId, row.gatewayTransactionId);
      if row.paymentStatus == Completed || !Truthy(actual) || !query.QueryOk? {
        UnchangedShape(s);
      } else {
        var v := GatewayVerdict(query.status);
        if v.None? || (v == Some(Paid) && row.userId !in s.users) {
          UnchangedShape(s);
        } else if v == Some(Paid) {
          CreditedShape(s, t, i, actual);
        } else if v == Some(Cancel) {
          SettledShape(s, t, i, Cancelled, row.gatewayTransactionId);
        } else {
          SettledShape(s, t, i, Failed, row.gatewayTransactionId);
        }
      }
    }
  }

  /** Every call, through whichever channel, has the shape of `StepShape`. */
  lemma StepFrame(s: Store, c: ChannelCall)
    ensures StepShape(s, Step(s, c), StepCredit(s, c))
  {
    match c
    case Webhook(trackId, orderId, status) => WebhookFrame(s, trackId, orderId, status);
    case BrowserReturn(orderId, trackId, status) => ReturnFrame(s, orderId, trackId, status);
    case Poll(orderId, trackId, query) => PollFrame(s, orderId, trackId, query);
  }

  lemma SameKeysTrans(a: seq<Transaction>, b: seq<Transaction>, c: seq<Transaction>)
    requires SameKeys(a, b) && SameKeys(b, c)
    ensures SameKeys(a, c)
  {
  }

  /** The credit total reads only owners and amounts, which the channels never change. */
  lemma {:induction false} CreditTotalSameKeys(a: seq<Transaction>, b: seq<Transaction>, log: seq<nat>, u: UserId)
    requires SameKeys(a, b)
    ensures CreditTotal(a, log, u) == CreditTotal(b, log, u)
    decreases |log|
  {
    if log != [] {
      CreditTotalSameKeys(a, b, log[1..], u);
    }
  }

  /**
   * What a sequence of calls may have done, taking `s` to `t` with credit log `log`: the
   * row keys are as they were; the log has no row twice, and each row in it was not
   * completed at the start and is completed at the end; a row completed at the start is
   * unchanged; and each user's document differs from its start only in a balance raised by
   * exactly the amounts of the rows credited to that user.
   */
  ghost predicate Reconciled(s: Store, t: Store, log: seq<nat>)
  {
    && SameKeys(s.rows, t.rows)
    && t.users.Keys == s.users.Keys
    && NoDuplicates(log)
    && (forall j :: 0 <= j < |log| ==>
          log[j] < |s.rows| && s.rows[log[j]].paymentStatus != Completed
          && t.rows[log[j]].paymentStatus == Completed)
    && (forall k :: 0 <= k < |s.rows| && s.rows[k].paymentStatus == Completed ==> t.rows[k] == s.rows[k])
    && (forall u :: u in s.users ==>
          t.users[u] == s.users[u].(balance := s.users[u].balance + CreditTotal(s.rows, log, u)))
  }

  /** A row credited by the first call cannot be credited again: it is completed from then on. */
  lemma {:induction false} FreshCredit(s1: Store, t: Store, i: nat, rest: seq<nat>)
    requires Reconciled(s1, t, rest) && i < |s1.rows| && s1.rows[i].paymentStatus == Completed
    ensures NoDuplicates([i] + rest)
  {
    var log := [i] + rest;
    forall j, k | 0 <= j < k < |log|
      ensures log[j] != log[k]
    {
      if j == 0 {
        assert log[k] == rest[k - 1];
        assert s1.rows[rest[k - 1]].paymentStatus != Completed;
      } else {
        assert log[j] == rest[j - 1] && log[k] == rest[k - 1];
      }
    }
  }

  /** The balances: one more credit in front of the log adds its amount to its owner only. */
  lemma {:induction false} PrependBalances(s: Store, s1: Store, t: Store, credit: Option<nat>, rest: seq<nat>)
    requires StepShape(s, s1, credit) && Reconciled(s1, t, rest)
    ensures forall u :: u in s.users ==>
              t.users[u] == s.users[u].(balance := s.users[u].balance + CreditTotal(s.rows, Prepend(credit, rest), u))
  {
    forall u | u in s.users
      ensures t.users[u] == s.users[u].(balance := s.users[u].balance + CreditTotal(s.rows, Prepend(credit, rest), u))
    {
      CreditTotalSameKeys(s.rows, s1.rows, rest, u);
      if credit.Some? {
        var log := Prepend(credit, rest);
        assert log[0] == credit.value && log[1..] == rest;
      }
    }
  }

  /** One call in front of a reconciled run gives a reconciled run. */
  lemma {:induction false} PrependStep(s: Store, s1: Store, t: Store, credit: Option<nat>, rest: seq<nat>)
    requires StepShape(s, s1, credit) && Reconciled(s1, t, rest)
    ensures Reconciled(s, t, Prepend(credit, rest))
  {
    SameKeysTrans(s.rows, s1.rows, t.rows);
    PrependBalances(s, s1, t, credit, rest);
    if credit.Some? {
      FreshCredit(s1, t, credit.value, rest);
      var log := Prepend(credit, rest);
      forall j | 0 <= j < |log|
        ensures log[j] < |s.rows| && s.rows[log[j]].paymentStatus != Completed
                && t.rows[log[j]].paymentStatus == Completed
      {
        if j > 0 {
          assert log[j] == rest[j - 1];
        }
      }
    }
  }

  /**
   * The reconciliation theorem: any sequence of webhook, return-URL and `verify` calls is
   * reconciled. No row is credited twice, only rows not completed at the start are
   * credited, completed rows never change, and every balance is its start plus the amounts
   * of the rows credited to its owner.
   */
  lemma {:induction false} RunLedger(s: Store, calls: seq<ChannelCall>)
    ensures Reconciled(s, Run(s, calls), CreditLog(s, calls))
    decreases |calls|
  {
    if calls != [] {
      var s1 := Step(s, calls[0]);
      StepFrame(s, calls[0]);
      RunLedger(s1, calls[1..]);
      PrependStep(s, s1, Run(s1, calls[1..]), StepCredit(s, calls[0]), CreditLog(s1, calls[1..]));
    }
  }

  /** Each channel keeps the store sound: a credit adds a positive deposit amount. */
  lemma StepKeepsSound(s: Store, c: ChannelCall)
    requires Sound(s)
    ensures Sound(Step(s, c))
  {
    StepFrame(s, c);
  }

  lemma {:induction false} RunKeepsSound(s: Store, calls: seq<ChannelCall>)
    requires Sound(s)
    ensures Sound(Run(s, calls))
    decreases |calls|
  {
    if calls != [] {
      StepKeepsSound(s, calls[0]);
      RunKeepsSound(Step(s, calls[0]), calls[1..]);
    }
  }

  /** A webhook delivered again after it credited a row finds the row completed and changes nothing. */
  lemma WebhookReplay(s: Store, trackId: Option<string>, orderId: Option<string>, status: BodyValue)
    requires Push(s, trackId, orderId, status).1 == Credited
    ensures var s1 := Push(s, trackId, orderId, status).0;
            Push(s1, trackId, orderId, status) == (s1, AlreadyCompleted)
  {
    var s1 := Push(s, trackId, orderId, status).0;
    StepFrame(s, Webhook(trackId, orderId, status));
    FindOneSameKeys(s.rows, s1.rows, orderId.value, true);
  }

  /** `verify`, asked about the payment id of a row some channel credited, looks up that same row. */
  lemma CreditedRowIsPolled(s: Store, c: ChannelCall)
    requires StepCredit(s, c).Some?
    ensures StepCredit(s, c).value < |s.rows|
    ensures VerifyTarget(s.rows, s.rows[StepCredit(s, c).value].paymentId) == StepCredit(s, c)
  {
    match c
    case Webhook(trackId, orderId, status) =>
      assert s.rows[StepCredit(s, c).value].paymentId == orderId;
    case BrowserReturn(orderId, trackId, status) =>
      assert s.rows[StepCredit(s, c).value].paymentId == orderId;
    case Poll(orderId, trackId, query) =>
  }

  /**
   * Once any channel has credited a row, `verify` on that order reports success with the
   * owner's balance and changes nothing, whatever the gateway now answers.
   */
  lemma PollAfterCredit(s: Store, c: ChannelCall, trackId: Option<string>, query: StatusQuery)
    requires StepCredit(s, c).Some?
    ensures var s1 := Step(s, c);
            var owner := s.rows[StepCredit(s, c).value].userId;
            Verify(s1, s.rows[StepCredit(s, c).value].paymentId, trackId, query)
              == (s1, AlreadyVerified(s1.users[owner].balance))
  {
    var s1 := Step(s, c);
    var orderId := s.rows[StepCredit(s, c).value].paymentId;
    CreditedRowIsPolled(s, c);
    StepFrame(s, c);
    FindOneSameKeys(s.rows, s1.rows, orderId.value, true);
    FindOneSameKeys(s.rows, s1.rows, orderId.value, false);
  }

  /**
   * The channels disagree on an expired invoice: the webhook marks the row failed, while
   * `verify` marks it cancelled.
   */
  lemma ExpiredDisagreement()
    ensures Classify(Text("expired")) == Fail
    ensures GatewayVerdict(Some("expired")) == Some(Cancel)
  {
    ClassifyWords();
  }
}
