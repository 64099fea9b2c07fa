/** The Pushover provider (internal/deliverer/provider/pushover) and the dispatcher on top of it. */
module Pushover {
  import opened Text
  import opened Notifications
  import opened ErrorTrees
  import opened Ledger
  import opened Retry
  import opened Dispatching
  import opened Dispatcher

  /** The decoded body of an API response; an undecodable body leaves the zero values. */
  datatype ApiBody = ApiBody(status: int, errors: seq<string>)

  /** What the HTTP exchange of one push comes to. */
  datatype Exchange =
    | BuildError(cause: Err)
    | NoResponse(cause: Err)
    | Response(status: int, body: ApiBody, raw: string)

  function Truncated(s: string, n: nat): string {
    if |s| <= n then s else s[..n]
  }

  predicate MentionsRecipient(e: string) {
    var le := ToLower(e);
    Contains(le, "user") || Contains(le, "token") || Contains(le, "device")
  }

  predicate IsRecipientRejection(errs: seq<string>) {
    exists i | 0 <= i < |errs| :: MentionsRecipient(errs[i])
  }

  function Classified(status: int, body: ApiBody, snippet: string): PushResult {
    if 200 <= status < 300 && body.status == 1 then Accepted(Some(snippet))
    else if status == 400 then
      if IsRecipientRejection(body.errors) then
        Failed(PermanentError(REASON_REJECTED_RECIPIENT, snippet, Some(Opaque("pushover: recipient rejected"))))
      else
        Failed(PermanentError(REASON_REJECTED_PAYLOAD, snippet, Some(Opaque("pushover: payload rejected"))))
    else if status == 401 || status == 403 then
      Failed(PermanentError(REASON_AUTH_FAILED, snippet, Some(Opaque("pushover: auth failed"))))
    else if status == 429 || status >= 500 then
      Failed(TransientError(snippet, Some(Opaque("pushover: status"))))
    else
      Failed(TransientError(snippet, Some(Opaque("pushover: unexpected status"))))
  }

  function MissingField(text: string): PushResult {
    Failed(PermanentError("provider-rejected-payload", "", Some(Opaque(text))))
  }

  /** One push: the two guards, then the exchange. */
  function Pushed(n: Notification, x: Exchange): PushResult {
    if !n.target.Pushover? || n.target.arm.None? then MissingField("pushover: missing PushoverTarget")
    else if n.content.None? then MissingField("pushover: missing Content")
    else match x
      case BuildError(cause) => Failed(TransientError("", Some(Wrapped("pushover: build request", cause))))
      case NoResponse(cause) => Failed(TransientError("", Some(Wrapped("pushover: http do", cause))))
      case Response(status, body, raw) => Classified(status, body, Truncated(raw, 512))
  }

  /** The notification gets past both guards. */
  predicate Sendable(n: Notification) {
    n.target.Pushover? && n.target.arm.Some? && n.content.Some?
  }

  /** The loop of isRecipientRejection stops at the first error that names a recipient. */
  method FindRecipientRejection(errs: seq<string>) returns (found: bool)
    ensures found == IsRecipientRejection(errs)
  {
    for i := 0 to |errs|
      invariant forall k | 0 <= k < i :: !MentionsRecipient(errs[k])
    {
      var le := ToLower(errs[i]);
      if Contains(le, "user") || Contains(le, "token") || Contains(le, "device") {
        return true;
      }
    }
    return false;
  }

  // --- What each exchange means ------------------------------------------------------------

  predicate IsSuccess(x: Exchange) {
    x.Response? && 200 <= x.status < 300 && x.body.status == 1
  }

  /** 400, 401 and 403: the request itself was refused. */
  predicate IsRefusal(x: Exchange) {
    x.Response? && x.status in {400, 401, 403}
  }

  /** Everything else only uses up budget: no response, 2xx without status 1, 3xx, other 4xx, 429, 5xx. */
  lemma ExchangeClasses(n: Notification, x: Exchange)
    requires Sendable(n)
    ensures Pushed(n, x).Accepted? <==> IsSuccess(x)
    ensures IsPermanent(Pushed(n, x)) <==> IsRefusal(x)
    ensures ClassOf(Pushed(n, x)) == if IsSuccess(x) then Success else if IsRefusal(x) then Permanent else Transient
  {
    var r := Pushed(n, x);
    if r.Failed? {
      CauseIsHidden(r.err, None);
    }
  }

  /** Only a refused request is blamed, and on the recipient exactly when a 400 names user, token or device. */
  lemma RefusalReasons(n: Notification, x: Exchange)
    requires Sendable(n) && IsRefusal(x)
    ensures Pushed(n, x).Failed? && Pushed(n, x).err.PermanentError?
    ensures Pushed(n, x).err.reason ==
            if x.status != 400 then "provider-auth-failed"
            else if IsRecipientRejection(x.body.errors) then "provider-rejected-recipient"
            else "provider-rejected-payload"
  {
  }

  /** Pushover as the dispatcher's response stream, over any sequence of exchanges. */
  function AsStream(exchanges: nat -> Exchange): (nat, Notification) -> PushResult {
    (i: nat, n: Notification) => Pushed(n, exchanges(i))
  }

  /** Sleep number i of a loop that starts at u succeeds. */
  predicate Awake(s: Streams, u: Usage, policy: Policy, i: nat) {
    i == 0 || s.sleepOk(|u.slept| + i - 1, BackoffAt(s, u, policy, i))
  }

  /** The exchange only uses up budget. */
  predicate IsRetried(x: Exchange) {
    !IsSuccess(x) && !IsRefusal(x)
  }

  /** The exchange of push i of a loop that starts at u. */
  function ExchangeAt(u: Usage, exchanges: nat -> Exchange, i: nat): Exchange {
    exchanges(|u.pushed| + i)
  }

  /** The first exchange that is not retried is a 2xx with status 1, within budget and with no failed sleep before. */
  predicate DeliveredBy(s: Streams, u: Usage, policy: Policy, exchanges: nat -> Exchange, k: nat) {
    && k < policy.maxAttempts
    && IsSuccess(ExchangeAt(u, exchanges, k))
    && (forall i: nat | i < k :: IsRetried(ExchangeAt(u, exchanges, i)))
    && (forall i: nat | i <= k :: Awake(s, u, policy, i))
  }

  lemma StopsReadOff(s: Streams, u: Usage, policy: Policy, n: Notification, exchanges: nat -> Exchange, i: nat)
    requires Sendable(n) && s.respond == AsStream(exchanges)
    ensures var future := FutureAt(s, u, policy, n); var x := ExchangeAt(u, exchanges, i);
      && SleepFails(future, i) == !Awake(s, u, policy, i)
      && future(i).response.Accepted? == IsSuccess(x)
      && Stops(future, i) == !(Awake(s, u, policy, i) && IsRetried(x))
  {
    ExchangeClasses(n, ExchangeAt(u, exchanges, i));
  }

  lemma DeliveredByIsDeliversAt(
    s: Streams, u: Usage, policy: Policy, n: Notification, exchanges: nat -> Exchange, k: nat)
    requires Sendable(n) && s.respond == AsStream(exchanges)
    ensures DeliveredBy(s, u, policy, exchanges, k) <==> DeliversAt(policy.maxAttempts, FutureAt(s, u, policy, n), k)
  {
    var future := FutureAt(s, u, policy, n);
    forall i: nat | i < k
      ensures Stops(future, i) == !(Awake(s, u, policy, i) && IsRetried(ExchangeAt(u, exchanges, i)))
    {
      StopsReadOff(s, u, policy, n, exchanges, i);
    }
    StopsReadOff(s, u, policy, n, exchanges, k);
  }

  /** Dispatching over Pushover delivers exactly in that case; all else is refused or exhausts the budget. */
  lemma PushoverDeliversIff(s: Streams, u: Usage, policy: Policy, n: Notification, exchanges: nat -> Exchange)
    requires Sendable(n) && s.respond == AsStream(exchanges)
    ensures var o := OutcomeOf(n.id, RunOf(policy.maxAttempts, FutureAt(s, u, policy, n)));
            o.status == Delivered <==> exists k :: DeliveredBy(s, u, policy, exchanges, k)
  {
    var future := FutureAt(s, u, policy, n);
    DeliveredIff(n.id, policy.maxAttempts, future);
    forall k: nat ensures DeliveredBy(s, u, policy, exchanges, k) <==> DeliversAt(policy.maxAttempts, future, k) {
      DeliveredByIsDeliversAt(s, u, policy, n, exchanges, k);
    }
  }

  /** The same for a refusal: the first exchange that is not retried is a 400, 401 or 403. */
  predicate RefusedBy(s: Streams, u: Usage, policy: Policy, exchanges: nat -> Exchange, k: nat) {
    && k < policy.maxAttempts
    && IsRefusal(ExchangeAt(u, exchanges, k))
    && (forall i: nat | i < k :: IsRetried(ExchangeAt(u, exchanges, i)))
    && (forall i: nat | i <= k :: Awake(s, u, policy, i))
  }

  lemma SettledIsFirstStop(s: Streams, u: Usage, policy: Policy, n: Notification, exchanges: nat -> Exchange, k: nat)
    requires Sendable(n) && s.respond == AsStream(exchanges)
    requires DeliveredBy(s, u, policy, exchanges, k) || RefusedBy(s, u, policy, exchanges, k)
    ensures var future := FutureAt(s, u, policy, n);
      && Stops(future, k) && !SleepFails(future, k) && (forall i: nat | i < k :: !Stops(future, i))
      && OutcomeOf(n.id, RunOf(policy.maxAttempts, future)) == StoppedOutcome(n.id, future, k)
  {
    var future := FutureAt(s, u, policy, n);
    forall i: nat | i <= k ensures Stops(future, i) == (i == k) && !SleepFails(future, i) {
      StopsReadOff(s, u, policy, n, exchanges, i);
    }
    FirstStopFixesOutcome(n.id, policy.maxAttempts, future, k);
  }

  lemma FirstStopIsSettled(s: Streams, u: Usage, policy: Policy, n: Notification, exchanges: nat -> Exchange, k: nat)
    requires Sendable(n) && s.respond == AsStream(exchanges) && k < policy.maxAttempts
    requires var future := FutureAt(s, u, policy, n);
      Stops(future, k) && !SleepFails(future, k) && forall i: nat | i < k :: !Stops(future, i)
    ensures DeliveredBy(s, u, policy, exchanges, k) || RefusedBy(s, u, policy, exchanges, k)
  {
    forall i: nat | i <= k
      ensures Awake(s, u, policy, i) && (i < k ==> IsRetried(ExchangeAt(u, exchanges, i)))
      ensures i == k ==> !IsRetried(ExchangeAt(u, exchanges, i))
    {
      StopsReadOff(s, u, policy, n, exchanges, i);
    }
  }

  lemma RefusalOutcome(s: Streams, u: Usage, policy: Policy, n: Notification, exchanges: nat -> Exchange, k: nat)
    requires Sendable(n) && s.respond == AsStream(exchanges) && RefusedBy(s, u, policy, exchanges, k)
    ensures var o := OutcomeOf(n.id, RunOf(policy.maxAttempts, FutureAt(s, u, policy, n)));
      var r := Pushed(n, ExchangeAt(u, exchanges, k));
      && r.Failed? && r.err.PermanentError?
      && o.status == PermanentlyFailed && o.reason == r.err.reason && o.attempts == k + 1
  {
    SettledIsFirstStop(s, u, policy, n, exchanges, k);
    RefusalReasons(n, ExchangeAt(u, exchanges, k));
  }

  /** A 400 that names a recipient, a 400 that does not, and 401 or 403. */
  predicate BlamesRecipient(x: Exchange) {
    x.Response? && x.status == 400 && IsRecipientRejection(x.body.errors)
  }

  predicate BlamesPayload(x: Exchange) {
    x.Response? && x.status == 400 && !IsRecipientRejection(x.body.errors)
  }

  predicate BlamesToken(x: Exchange) {
    x.Response? && x.status in {401, 403}
  }

  /**
   * What the recorded reason says about the exchanges: each refusal reason is recorded exactly when the first
   * exchange that was not retried is of its kind, and `retry-budget-exhausted` exactly when there was none in reach.
   */
  lemma ReasonIff(s: Streams, u: Usage, policy: Policy, n: Notification, exchanges: nat -> Exchange, o: Outcome)
    requires Sendable(n) && s.respond == AsStream(exchanges)
    requires o == OutcomeOf(n.id, RunOf(policy.maxAttempts, FutureAt(s, u, policy, n)))
    ensures o.reason == REASON_REJECTED_RECIPIENT <==>
            exists k :: RefusedBy(s, u, policy, exchanges, k) && BlamesRecipient(ExchangeAt(u, exchanges, k))
    ensures o.reason == REASON_REJECTED_PAYLOAD <==>
            exists k :: RefusedBy(s, u, policy, exchanges, k) && BlamesPayload(ExchangeAt(u, exchanges, k))
    ensures o.reason == REASON_AUTH_FAILED <==>
            exists k :: RefusedBy(s, u, policy, exchanges, k) && BlamesToken(ExchangeAt(u, exchanges, k))
    ensures o.reason == REASON_BUDGET_EXHAUSTED <==>
            forall k :: !DeliveredBy(s, u, policy, exchanges, k) && !RefusedBy(s, u, policy, exchanges, k)
  {
    if k :| RefusedBy(s, u, policy, exchanges, k) {
      RefusalOutcome(s, u, policy, n, exchanges, k);
      RefusalReasons(n, ExchangeAt(u, exchanges, k));
      forall j | RefusedBy(s, u, policy, exchanges, j) ensures j == k {
        SettledIsFirstStop(s, u, policy, n, exchanges, k);
        SettledIsFirstStop(s, u, policy, n, exchanges, j);
      }
    } else {
      UnrefusedReason(s, u, policy, n, exchanges, o);
    }
  }

  lemma UnrefusedReason(s: Streams, u: Usage, policy: Policy, n: Notification, exchanges: nat -> Exchange, o: Outcome)
    requires Sendable(n) && s.respond == AsStream(exchanges)
    requires o == OutcomeOf(n.id, RunOf(policy.maxAttempts, FutureAt(s, u, policy, n)))
    requires forall k :: !RefusedBy(s, u, policy, exchanges, k)
    ensures o.reason == if exists k :: DeliveredBy(s, u, policy, exchanges, k) then "" else REASON_BUDGET_EXHAUSTED
  {
    var future := FutureAt(s, u, policy, n);
    if k :| DeliveredBy(s, u, policy, exchanges, k) {
      SettledIsFirstStop(s, u, policy, n, exchanges, k);
      StopsReadOff(s, u, policy, n, exchanges, k);
    } else if exists i: nat | i < policy.maxAttempts :: Stops(future, i) {
      var k := FirstStopExists(future, policy.maxAttempts);
      FirstStopFixesOutcome(n.id, policy.maxAttempts, future, k);
      if !SleepFails(future, k) {
        FirstStopIsSettled(s, u, policy, n, exchanges, k);
        assert false;
      }
    } else {
      NoStopExhaustsBudget(n.id, policy.maxAttempts, future);
    }
  }
}
