/** One dispatch as a pure function of what its environment answers. */
module Dispatching {
  import opened Text
  import opened Notifications
  import opened ErrorTrees
  import opened Ledger

  /** What a push provider returns: a result (possibly nil) or an error. */
  datatype PushResult = Accepted(result: Option<string>) | Failed(err: Err)

  /** One turn of the retry loop: did the sleep before it succeed, when did it run, what came back. */
  datatype Attempt = Attempt(slept: bool, start: Time, end: Time, response: PushResult)

  /** What the environment would answer to the attempts of one dispatch; `future(0)` is the first. */
  type Future = nat -> Attempt

  /** The pushes that were made; `aborted` when the sleep before the next one failed. */
  datatype Run = Run(attempts: seq<Attempt>, aborted: bool)

  // --- Before the loop -----------------------------------------------------------------

  /** The expiry test: strict, and an unset or zero expiry never expires. */
  predicate IsExpired(n: Notification, now: Time) {
    n.expiresAt.Some? && n.expiresAt.value != ZERO_TIME && now > n.expiresAt.value
  }

  /** A provider is registered for the notification's target arm. */
  predicate Resolves(n: Notification, registered: set<string>) {
    n.target.Pushover? && "pushover" in registered
  }

  // --- The loop ---------------------------------------------------------------------------

  predicate IsPermanent(r: PushResult) {
    r.Failed? && DispatchClass(r.err) == ClassPermanent
  }

  predicate IsTerminal(r: PushResult) {
    r.Accepted? || IsPermanent(r)
  }

  function RunFrom(max: int, future: Future, made: seq<Attempt>): Run
    decreases max - |made|
  {
    var next := future(|made|);
    if |made| >= max then Run(made, false)
    else if |made| > 0 && !next.slept then Run(made, true)
    else if IsTerminal(next.response) then Run(made + [next], false)
    else RunFrom(max, future, made + [next])
  }

  function RunOf(max: int, future: Future): Run {
    RunFrom(max, future, [])
  }

  // --- What is recorded -------------------------------------------------------------------

  /** `first` of the loop: it is set while it is still the zero time. */
  function FirstTime(made: seq<Attempt>): Time {
    if made == [] then ZERO_TIME
    else
      var earlier := FirstTime(made[..|made| - 1]);
      if earlier != ZERO_TIME then earlier else made[|made| - 1].start
  }

  function LastTime(made: seq<Attempt>): Time {
    if made == [] then ZERO_TIME else made[|made| - 1].end
  }

  /** The text kept of a failure that is retried. */
  function FailureText(e: Err): string {
    var te := As(e, TransientKind);
    if te.Some? then te.value.response else Message(e)
  }

  function LastResponse(made: seq<Attempt>): string {
    if made == [] then ""
    else match made[|made| - 1].response
      case Accepted(_) => ""
      case Failed(e) => FailureText(e)
  }

  function SafeResponse(result: Option<string>): string {
    if result.None? then "" else result.value
  }

  function Exhausted(id: string, made: seq<Attempt>): Outcome {
    Outcome(id, PermanentlyFailed, REASON_BUDGET_EXHAUSTED, LastResponse(made), |made|, FirstTime(made), LastTime(made))
  }

  /** The terminal outcome of the loop. */
  function OutcomeOf(id: string, run: Run): Outcome {
    var made := run.attempts;
    if run.aborted || made == [] || !IsTerminal(made[|made| - 1].response) then Exhausted(id, made)
    else match made[|made| - 1].response
      case Accepted(result) =>
        Outcome(id, Delivered, "", SafeResponse(result), |made|, FirstTime(made), LastTime(made))
      case Failed(e) =>
        var pe := As(e, PermanentKind).value;
        Outcome(id, PermanentlyFailed, pe.reason, pe.response, |made|, FirstTime(made), LastTime(made))
  }

  function ExpiredOutcome(id: string, now: Time): Outcome {
    Outcome(id, Expired, REASON_EXPIRED, "", 0, now, now)
  }

  function UnresolvedOutcome(id: string, now: Time): Outcome {
    Outcome(id, PermanentlyFailed, REASON_REJECTED_PAYLOAD, "", 0, now, now)
  }

  /** The whole dispatch of a notification, read at `now`: its outcome and the pushes it makes. */
  function Dispatched(n: Notification, now: Time, registered: set<string>, max: int, future: Future): (Outcome, Run) {
    if IsExpired(n, now) then (ExpiredOutcome(n.id, now), Run([], false))
    else if !Resolves(n, registered) then (UnresolvedOutcome(n.id, now), Run([], false))
    else (OutcomeOf(n.id, RunOf(max, future)), RunOf(max, future))
  }

  function ClassOf(r: PushResult): ResultClass {
    if r.Accepted? then Success else if IsPermanent(r) then Permanent else Transient
  }

  function CountAttempts(c: Counters, made: seq<Attempt>): Counters {
    if made == [] then c
    else CountAttempt(CountAttempts(c, made[..|made| - 1]), ClassOf(made[|made| - 1].response))
  }

  // --- The loop, said without the loop ------------------------------------------------------

  /** The i-th attempt (from 0) ends the loop: its sleep fails, or its response is final. */
  predicate Stops(future: Future, i: nat) {
    SleepFails(future, i) || IsTerminal(future(i).response)
  }

  predicate SleepFails(future: Future, i: nat) {
    i > 0 && !future(i).slept
  }

  function Prefix(future: Future, k: nat): (made: seq<Attempt>)
    ensures |made| == k && forall i: nat | i < k :: made[i] == future(i)
  {
    seq(k, i requires 0 <= i => future(i))
  }

  /** The outcome a dispatch gets when attempt k (from 0) is the first to stop it. */
  function StoppedOutcome(id: string, future: Future, k: nat): Outcome
    requires Stops(future, k)
  {
    if SleepFails(future, k) then
      Outcome(id, PermanentlyFailed, REASON_BUDGET_EXHAUSTED, ResponseText(future(k - 1).response), k,
              FirstTime(Prefix(future, k)), future(k - 1).end)
    else
      var first := FirstTime(Prefix(future, k + 1));
      match future(k).response
      case Accepted(result) => Outcome(id, Delivered, "", SafeResponse(result), k + 1, first, future(k).end)
      case Failed(e) =>
        var pe := As(e, PermanentKind).value;
        Outcome(id, PermanentlyFailed, pe.reason, pe.response, k + 1, first, future(k).end)
  }

  function ResponseText(r: PushResult): string {
    if r.Failed? then FailureText(r.err) else ""
  }

  lemma {:induction false} RunReachesFirstStop(max: int, future: Future, made: seq<Attempt>, k: nat)
    requires |made| <= k < max && made == Prefix(future, |made|)
    requires Stops(future, k) && forall i: nat | i < k :: !Stops(future, i)
    ensures RunFrom(max, future, made)
         == if SleepFails(future, k) then Run(Prefix(future, k), true) else Run(Prefix(future, k + 1), false)
    decreases k - |made|
  {
    assert made + [future(|made|)] == Prefix(future, |made| + 1);
    if |made| < k {
      assert !Stops(future, |made|);
      RunReachesFirstStop(max, future, made + [future(|made|)], k);
    } else {
      assert made == Prefix(future, k) && made + [future(k)] == Prefix(future, k + 1);
    }
  }

  lemma {:induction false} RunExhausts(max: int, future: Future, made: seq<Attempt>)
    requires made == Prefix(future, |made|) && (|made| <= max || (made == [] && max < 0))
    requires forall i: nat | i < max :: !Stops(future, i)
    ensures RunFrom(max, future, made) == Run(Prefix(future, if max > 0 then max else 0), false)
    decreases max - |made|
  {
    if |made| < max {
      assert made + [future(|made|)] == Prefix(future, |made| + 1);
      assert !Stops(future, |made|);
      RunExhausts(max, future, made + [future(|made|)]);
    } else {
      assert made == Prefix(future, if max > 0 then max else 0);
    }
  }

  /**
   * The first attempt within the budget that succeeds, fails for good, or cannot be slept for
   * fixes the outcome: its status, reason, response, attempt count and last time.
   */
  lemma FirstStopFixesOutcome(id: string, max: int, future: Future, k: nat)
    requires k < max && Stops(future, k) && forall i: nat | i < k :: !Stops(future, i)
    ensures OutcomeOf(id, RunOf(max, future)) == StoppedOutcome(id, future, k)
    ensures |RunOf(max, future).attempts| == if SleepFails(future, k) then k else k + 1
  {
    RunReachesFirstStop(max, future, [], k);
    var made := RunOf(max, future).attempts;
    if !SleepFails(future, k) {
      assert made[|made| - 1] == future(k);
    } else {
      assert !Stops(future, k - 1);
      assert made[|made| - 1] == future(k - 1);
    }
  }

  /** Without such an attempt the budget is used up: max(MaxAttempts, 0) pushes and the last failure's text. */
  lemma NoStopExhaustsBudget(id: string, max: int, future: Future)
    requires forall i: nat | i < max :: !Stops(future, i)
    ensures var used := if max > 0 then max else 0;
            var run := RunOf(max, future);
            && run == Run(Prefix(future, used), false)
            && OutcomeOf(id, run) == Exhausted(id, Prefix(future, used))
            && OutcomeOf(id, run).attempts == used
            && OutcomeOf(id, run).providerResponse == if max > 0 then ResponseText(future(max - 1).response) else ""
  {
    RunExhausts(max, future, []);
    if max > 0 {
      var made := RunOf(max, future).attempts;
      assert made[max - 1] == future(max - 1) && !Stops(future, max - 1);
    }
  }

  lemma {:induction false} FirstStopExists(future: Future, bound: nat) returns (k: nat)
    requires exists i: nat | i < bound :: Stops(future, i)
    ensures k < bound && Stops(future, k) && forall i: nat | i < k :: !Stops(future, i)
  {
    if exists i: nat | i < bound - 1 :: Stops(future, i) {
      k := FirstStopExists(future, bound - 1);
    } else {
      k := bound - 1;
    }
  }

  /** Attempt k (from 0) is a success within the budget that nothing stopped before. */
  predicate DeliversAt(max: int, future: Future, k: nat) {
    && k < max
    && future(k).response.Accepted?
    && !SleepFails(future, k)
    && (forall i: nat | i < k :: !Stops(future, i))
  }

  /** Delivery, read off the future. */
  lemma DeliveredIff(id: string, max: int, future: Future)
    ensures OutcomeOf(id, RunOf(max, future)).status == Delivered <==> exists k :: DeliversAt(max, future, k)
  {
    if k :| DeliversAt(max, future, k) {
      assert Stops(future, k);
      FirstStopFixesOutcome(id, max, future, k);
    } else if exists i: nat | i < max :: Stops(future, i) {
      var k := FirstStopExists(future, max);
      FirstStopFixesOutcome(id, max, future, k);
      assert !DeliversAt(max, future, k);
    } else {
      NoStopExhaustsBudget(id, max, future);
    }
  }

  /** Every dispatch records the pushes it made, and never more than the budget. */
  lemma AttemptsAreCounted(n: Notification, now: Time, registered: set<string>, max: int, future: Future)
    ensures var (o, run) := Dispatched(n, now, registered, max, future);
            && o.notificationId == n.id
            && o.attempts == |run.attempts|
            && |run.attempts| <= (if max > 0 then max else 0)
            && run.attempts == Prefix(future, |run.attempts|)
            && (run.aborted ==> 0 < |run.attempts| < max)
  {
    if !IsExpired(n, now) && Resolves(n, registered) {
      if exists i: nat | i < max :: Stops(future, i) {
        var k := FirstStopExists(future, max);
        RunReachesFirstStop(max, future, [], k);
      } else {
        RunExhausts(max, future, []);
      }
    }
  }

  /** Only the last attempt of a run can be final, and only when no sleep aborted it. */
  lemma EarlierAttemptsRetried(max: int, future: Future)
    ensures var run := RunOf(max, future); var made := run.attempts;
      && (forall i | 0 <= i < |made| - 1 :: !IsTerminal(made[i].response))
      && (run.aborted && made != [] ==> !IsTerminal(made[|made| - 1].response))
  {
    if exists i: nat | i < max :: Stops(future, i) {
      var k := FirstStopExists(future, max);
      RunReachesFirstStop(max, future, [], k);
      forall i: nat | i < k ensures !IsTerminal(future(i).response) {
        assert !Stops(future, i);
      }
    } else {
      RunExhausts(max, future, []);
      forall i: nat | i < max ensures !IsTerminal(future(i).response) {
        assert !Stops(future, i);
      }
    }
  }

  /** An outcome counts its run's attempts and says delivered exactly for an accepted last one. */
  lemma OutcomeReadsRun(id: string, run: Run)
    requires run.aborted && run.attempts != [] ==> !IsTerminal(run.attempts[|run.attempts| - 1].response)
    ensures var o := OutcomeOf(id, run); var made := run.attempts;
      && o.notificationId == id && o.attempts == |made|
      && (o.status == Delivered <==> made != [] && made[|made| - 1].response.Accepted?)
  {
  }

  /** The recorded times are those of the attempts made, or one and the same reading without any. */
  lemma RecordedTimes(n: Notification, now: Time, registered: set<string>, max: int, future: Future)
    ensures var (o, run) := Dispatched(n, now, registered, max, future);
      && (run.attempts == [] ==> o.firstAttempt == o.lastAttempt)
      && (run.attempts != [] ==> o.firstAttempt == FirstTime(run.attempts) && o.lastAttempt == LastTime(run.attempts))
  {
  }

  /** Only the last attempt of a dispatch can be final; it was accepted exactly when the outcome says delivered. */
  lemma OnlyLastIsFinal(n: Notification, now: Time, registered: set<string>, max: int, future: Future)
    ensures var (o, run) := Dispatched(n, now, registered, max, future); var made := run.attempts;
      && (forall i | 0 <= i < |made| - 1 :: !IsTerminal(made[i].response))
      && (o.status == Delivered <==> made != [] && made[|made| - 1].response.Accepted?)
  {
    EarlierAttemptsRetried(max, future);
  }

  /** Attempt k is the first to stop the loop, and leaves attempts of the budget unused, under the give-up reason. */
  predicate GivesUpAt(max: int, future: Future, k: nat) {
    && k < max
    && Stops(future, k) && (forall i: nat | i < k :: !Stops(future, i))
    && (SleepFails(future, k) || (k + 1 < max && RefusedAsExhausted(future(k).response)))
  }

  /** A permanent error that carries the give-up reason itself. */
  predicate RefusedAsExhausted(r: PushResult) {
    IsPermanent(r) && As(r.err, PermanentKind).value.reason == REASON_BUDGET_EXHAUSTED
  }

  lemma StoppedReason(id: string, future: Future, k: nat)
    requires Stops(future, k)
    ensures StoppedOutcome(id, future, k).reason == REASON_BUDGET_EXHAUSTED <==>
            SleepFails(future, k) || RefusedAsExhausted(future(k).response)
    ensures StoppedOutcome(id, future, k).attempts == if SleepFails(future, k) then k else k + 1
  {
    assert REASON_BUDGET_EXHAUSTED != "";
  }

  /**
   * `retry-budget-exhausted` is recorded with budget left if and only if the first stop is a failed sleep, or an
   * early permanent error under that very reason.
   */
  lemma GivenUpEarlyIff(id: string, max: int, future: Future)
    ensures var o := OutcomeOf(id, RunOf(max, future));
      o.reason == REASON_BUDGET_EXHAUSTED && o.attempts < max <==> exists k :: GivesUpAt(max, future, k)
  {
    if exists i: nat | i < max :: Stops(future, i) {
      var k := FirstStopExists(future, max);
      FirstStopFixesOutcome(id, max, future, k);
      var o := OutcomeOf(id, RunOf(max, future));
      assert o.reason == REASON_BUDGET_EXHAUSTED && o.attempts < max <==> GivesUpAt(max, future, k) by {
        StoppedReason(id, future, k);
      }
      forall j | GivesUpAt(max, future, j) ensures j == k {
        assert j < k ==> !Stops(future, j);
        assert k < j ==> !Stops(future, k);
      }
    } else {
      NoStopExhaustsBudget(id, max, future);
    }
  }

  /** A transient failure, then a sleep that is cut short. */
  function CutShort(): Future {
    (i: nat) => Attempt(i == 0, i, i, Failed(TransientError("busy", None)))
  }

  /** An input of each kind: a dispatch cut short after one of five attempts, and a refusal under that reason. */
  lemma GivenUpEarlyHappens(id: string)
    ensures var o := OutcomeOf(id, RunOf(5, CutShort()));
      && RunOf(5, CutShort()).aborted
      && o.reason == REASON_BUDGET_EXHAUSTED && o.attempts == 1 && o.providerResponse == "busy"
    ensures var refused := Failed(PermanentError(REASON_BUDGET_EXHAUSTED, "", None));
      var run := RunOf(5, i => Attempt(true, i, i, refused));
      !run.aborted && OutcomeOf(id, run).reason == REASON_BUDGET_EXHAUSTED && OutcomeOf(id, run).attempts == 1
  {
    CauseIsHidden(TransientError("busy", None), None);
    assert !Stops(CutShort(), 0) && SleepFails(CutShort(), 1);
    RunReachesFirstStop(5, CutShort(), [], 1);
    FirstStopFixesOutcome(id, 5, CutShort(), 1);
    var refused: Future := i => Attempt(true, i, i, Failed(PermanentError(REASON_BUDGET_EXHAUSTED, "", None)));
    CauseIsHidden(PermanentError(REASON_BUDGET_EXHAUSTED, "", None), None);
    assert Stops(refused, 0);
    RunReachesFirstStop(5, refused, [], 0);
    FirstStopFixesOutcome(id, 5, refused, 0);
  }

  lemma {:induction false} CountAttemptsTotal(c: Counters, made: seq<Attempt>)
    ensures TotalAttempts(CountAttempts(c, made)) == TotalAttempts(c) + |made|
    ensures CountAttempts(c, made).(providerAttempts := c.providerAttempts) == c
  {
    if made != [] {
      var front := made[..|made| - 1];
      CountAttemptsTotal(c, front);
      CountingAttempt(CountAttempts(c, front), ClassOf(made[|made| - 1].response));
    }
  }
}
