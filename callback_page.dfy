/**
 * src/app/payment-callback/page.js: the page the gateway sends the browser back to. It
 * polls `verify`, celebrates a success, retries a pending answer every two seconds up to
 * five times, and otherwise reports failure; each outcome schedules a navigation back to
 * the wallet.
 */
module CallbackPage {
  import opened Wrappers
  import opened JsValues
  import VerifyPayment

  const MaxRetries: int := 5

  datatype PageStatus = PageVerifying | PageSuccess | PageFailed | PageError

  /** The `verify` request: the order id, and the track id and status when they are truthy. */
  datatype VerifyRequest = VerifyRequest(orderId: string, trackId: Option<string>, status: Option<string>)

  /** What the page sends, or `None` when there is no order id and it shows the error at once. */
  function RequestFor(orderId: Option<string>, trackId: Option<string>, status: Option<string>): (r: Option<VerifyRequest>)
    ensures r.None? <==> !Truthy(orderId)
    ensures r.Some? ==> r.value.orderId == orderId.value
                        && Truthy(r.value.trackId) == Truthy(trackId) && Truthy(r.value.status) == Truthy(status)
    ensures r.Some? ==> r.value.trackId == KeepTruthy(trackId) && r.value.status == KeepTruthy(status)
  {
    if !Truthy(orderId) then None
    else Some(VerifyRequest(orderId.value, KeepTruthy(trackId), KeepTruthy(status)))
  }

  /** The result of one poll: the request or its JSON decoding threw, or the two flags of the body. */
  datatype FetchOutcome = FetchThrew | Answer(success: bool, pending: bool)

  /** The flags the page reads from a `verify` reply. */
  function AnswerOf(r: VerifyPayment.VerifyReply): FetchOutcome
  {
    Answer(VerifyPayment.Succeeded(r), VerifyPayment.PendingFlag(r))
  }

  /** Where a scheduled `router.replace` goes. */
  datatype Navigation = ToWalletPaid | ToWallet | ToWalletFailed

  datatype PageAction =
    | Celebrate
    | RetryLater(attempt: int)
    | GiveUp
    | ShowFailure
    | ShowError

  /** The status an action shows. */
  function StatusAfter(a: PageAction): PageStatus
  {
    match a
    case Celebrate => PageSuccess
    case RetryLater(_) => PageVerifying
    case GiveUp => PageError
    case ShowFailure => PageFailed
    case ShowError => PageError
  }

  /** The timer an action sets: a navigation after a delay in milliseconds (a retry re-polls instead). */
  function ScheduledNavigation(a: PageAction): Option<(Navigation, int)>
  {
    match a
    case Celebrate => Some((ToWalletPaid, 1500))
    case GiveUp => Some((ToWallet, 3000))
    case ShowFailure => Some((ToWalletFailed, 2000))
    case _ => None
  }

  /**
   * The decision after one poll, given the retry counter the guard reads: success wins, a
   * pending answer is retried while the counter is under five and abandoned after, any
   * other answer is a failure, and an exception is an error.
   */
  function Decide(o: FetchOutcome, retryCount: int): (a: PageAction)
    ensures a == Celebrate <==> o.Answer? && o.success
    ensures a.RetryLater? <==> o.Answer? && !o.success && o.pending && retryCount < MaxRetries
    ensures a.RetryLater? ==> a.attempt == retryCount + 1
    ensures a == GiveUp <==> o.Answer? && !o.success && o.pending && retryCount >= MaxRetries
    ensures a == ShowFailure <==> o.Answer? && !o.success && !o.pending
    ensures a == ShowError <==> o.FetchThrew?
  {
    match o
    case FetchThrew => ShowError
    case Answer(success, pending) =>
      if success then Celebrate
      else if pending then (if retryCount < MaxRetries then RetryLater(retryCount + 1) else GiveUp)
      else ShowFailure
  }

  /** What each decision shows and where it leads: the statuses and timed navigations of the page. */
  lemma DecisionEffects(o: FetchOutcome, retryCount: int)
    ensures o.Answer? && o.success ==>
              StatusAfter(Decide(o, retryCount)) == PageSuccess
              && ScheduledNavigation(Decide(o, retryCount)) == Some((ToWalletPaid, 1500))
    ensures o.Answer? && !o.success && o.pending && retryCount < MaxRetries ==>
              StatusAfter(Decide(o, retryCount)) == PageVerifying && ScheduledNavigation(Decide(o, retryCount)).None?
    ensures o.Answer? && !o.success && o.pending && retryCount >= MaxRetries ==>
              StatusAfter(Decide(o, retryCount)) == PageError
              && ScheduledNavigation(Decide(o, retryCount)) == Some((ToWallet, 3000))
    ensures o.Answer? && !o.success && !o.pending ==>
              StatusAfter(Decide(o, retryCount)) == PageFailed
              && ScheduledNavigation(Decide(o, retryCount)) == Some((ToWalletFailed, 2000))
    ensures o.FetchThrew? ==>
              StatusAfter(Decide(o, retryCount)) == PageError && ScheduledNavigation(Decide(o, retryCount)).None?
  {
  }

  /**
   * The page follows the server: it celebrates exactly the replies `verify` marks as
   * successful, keeps or stops polling exactly on the pending ones, and fails on the rest.
   */
  lemma PageFollowsVerify(r: VerifyPayment.VerifyReply, retryCount: int)
    ensures Decide(AnswerOf(r), retryCount) == Celebrate <==> VerifyPayment.Succeeded(r)
    ensures (Decide(AnswerOf(r), retryCount).RetryLater? || Decide(AnswerOf(r), retryCount) == GiveUp)
              <==> VerifyPayment.PendingFlag(r)
    ensures Decide(AnswerOf(r), retryCount) == ShowFailure <==> !VerifyPayment.Succeeded(r) && !VerifyPayment.PendingFlag(r)
  {
  }

  // ---------------------------------------------------------------- successive polls

  /** The number of retries among a run's actions. */
  function Retries(actions: seq<PageAction>): nat
  {
    if actions == [] then 0 else (if actions[0].RetryLater? then 1 else 0) + Retries(actions[1..])
  }

  /**
   * The actions of successive polls when the guard reads a live counter that each retry
   * raises, starting from `count`; the run ends at the first action that is not a retry.
   */
  function RunRetries(outcomes: seq<FetchOutcome>, count: int): seq<PageAction>
    decreases |outcomes|
  {
    if outcomes == [] then []
    else
      var a := Decide(outcomes[0], count);
      if a.RetryLater? then [a] + RunRetries(outcomes[1..], count + 1) else [a]
  }

  /**
   * The same polls as the page is written: the retry callback is the closure of the
   * effect's first run, so its guard reads the `retryCount` of that render, 0, every time.
   */
  function RunAsWritten(outcomes: seq<FetchOutcome>): seq<PageAction>
    decreases |outcomes|
  {
    if outcomes == [] then []
    else
      var a := Decide(outcomes[0], 0);
      if a.RetryLater? then [a] + RunAsWritten(outcomes[1..]) else [a]
  }

  /** With a live counter, a run retries at most five times in all. */
  lemma {:induction false} RetriesBounded(outcomes: seq<FetchOutcome>, count: int)
    requires count >= 0
    ensures Retries(RunRetries(outcomes, count)) <= if count < MaxRetries then MaxRetries - count else 0
    decreases |outcomes|
  {
    if outcomes != [] {
      var a := Decide(outcomes[0], count);
      if a.RetryLater? {
        RetriesBounded(outcomes[1..], count + 1);
        assert ([a] + RunRetries(outcomes[1..], count + 1))[1..] == RunRetries(outcomes[1..], count + 1);
      }
    }
  }

  /** A poll that stays pending for ever: the shape of an invoice the payer never settles. */
  predicate AllPending(outcomes: seq<FetchOutcome>)
  {
    forall k :: 0 <= k < |outcomes| ==> outcomes[k] == Answer(false, true)
  }

  /** Retries numbered `from`, `from + 1`, ..., `n` of them. */
  function Attempts(from: int, n: nat): seq<PageAction>
    decreases n
  {
    if n == 0 then [] else [RetryLater(from)] + Attempts(from + 1, n - 1)
  }

  /**
   * With a live counter at `count`, a payment that stays pending is retried as attempts
   * `count + 1` to five and then abandoned.
   */
  lemma {:induction false} PendingRunGivesUp(outcomes: seq<FetchOutcome>, count: int)
    requires 0 <= count <= MaxRetries && |outcomes| > MaxRetries - count && AllPending(outcomes)
    ensures RunRetries(outcomes, count) == Attempts(count + 1, MaxRetries - count) + [GiveUp]
    decreases MaxRetries - count
  {
    if count < MaxRetries {
      PendingRunGivesUp(outcomes[1..], count + 1);
      assert RunRetries(outcomes, count) == [RetryLater(count + 1)] + (Attempts(count + 2, MaxRetries - count - 1) + [GiveUp]);
    }
  }

  lemma {:induction false} RetriesOfAttempts(from: int, n: nat)
    ensures Retries(Attempts(from, n) + [GiveUp]) == n
    decreases n
  {
    if n > 0 {
      RetriesOfAttempts(from + 1, n - 1);
      assert (Attempts(from, n) + [GiveUp])[1..] == Attempts(from + 1, n - 1) + [GiveUp];
    } else {
      assert Attempts(from, n) + [GiveUp] == [GiveUp];
    }
  }

  /** With a live counter, a payment that stays pending is abandoned at the sixth poll. */
  lemma GivesUpOnSixthPoll(outcomes: seq<FetchOutcome>)
    requires |outcomes| >= 6 && AllPending(outcomes)
    ensures RunRetries(outcomes, 0) == [RetryLater(1), RetryLater(2), RetryLater(3), RetryLater(4), RetryLater(5), GiveUp]
  {
    PendingRunGivesUp(outcomes, 0);
  }

  /**
   * As written, a payment that stays pending is retried after every poll, each time as
   * attempt 1 of 5: the guard never reaches five and the page never gives up.
   */
  lemma {:induction false} StaleGuardNeverGivesUp(outcomes: seq<FetchOutcome>)
    requires AllPending(outcomes)
    ensures |RunAsWritten(outcomes)| == |outcomes|
    ensures forall k :: 0 <= k < |outcomes| ==> RunAsWritten(outcomes)[k] == RetryLater(1)
    ensures Retries(RunAsWritten(outcomes)) == |outcomes|
    decreases |outcomes|
  {
    if outcomes != [] {
      StaleGuardNeverGivesUp(outcomes[1..]);
      var rest := RunAsWritten(outcomes[1..]);
      assert RunAsWritten(outcomes) == [RetryLater(1)] + rest;
      assert ([RetryLater(1)] + rest)[1..] == rest;
    }
  }

  /** Six pending answers: the page as written retries six times, past the intended five. */
  lemma StaleGuardExceedsBound()
    ensures var six := [Answer(false, true), Answer(false, true), Answer(false, true),
                        Answer(false, true), Answer(false, true), Answer(false, true)];
            Retries(RunAsWritten(six)) == 6 && Retries(RunRetries(six, 0)) == 5
  {
    var six := [Answer(false, true), Answer(false, true), Answer(false, true),
                Answer(false, true), Answer(false, true), Answer(false, true)];
    StaleGuardNeverGivesUp(six);
    PendingRunGivesUp(six, 0);
    RetriesOfAttempts(1, 5);
  }

  /**
   * The page's state with the retry counter read where it is kept, as the guard intends:
   * each handled poll moves the status and, on a retry, raises the counter.
   */
  class PaymentCallbackPage {
    var status: PageStatus
    var retryCount: int

    constructor ()
      ensures status == PageVerifying && retryCount == 0
    {
      status := PageVerifying;
      retryCount := 0;
    }

    /** The first step of a poll: build the request, or show the error when there is no order id. */
    method Start(orderId: Option<string>, trackId: Option<string>, statusParam: Option<string>) returns (request: Option<VerifyRequest>)
      modifies this
      ensures request == RequestFor(orderId, trackId, statusParam)
      ensures retryCount == old(retryCount)
      ensures status == if request.None? then PageError else old(status)
    {
      request := RequestFor(orderId, trackId, statusParam);
      if request.None? {
        status := PageError;
      }
    }

    /** The rest of a poll: decide on its outcome with the current counter. */
    method OnOutcome(o: FetchOutcome) returns (action: PageAction)
      modifies this
      ensures action == Decide(o, old(retryCount))
      ensures status == StatusAfter(action)
      ensures retryCount == if action.RetryLater? then old(retryCount) + 1 else old(retryCount)
      ensures old(retryCount) >= 0 ==> 0 <= retryCount <= if old(retryCount) < MaxRetries then MaxRetries else old(retryCount)
    {
      action := Decide(o, retryCount);
      if action.RetryLater? {
        retryCount := retryCount + 1;
      }
      status := StatusAfter(action);
    }
  }
}
