/** The dispatcher's control flow (internal/deliverer/dispatcher) over an arbitrary environment. */
module Dispatcher {
  import opened Text
  import opened Notifications
  import opened ErrorTrees
  import opened Ledger
  import opened Retry
  import opened Dispatching

  /**
   * Everything the dispatcher cannot decide itself, as infinite streams: clock readings, results of
   * sleeps, random draws and the registered provider's responses to successive pushes.
   */
  datatype Streams = Streams(
    clock: nat -> Time,
    sleepOk: (nat, Duration) -> bool,
    draw: nat -> real,
    respond: (nat, Notification) -> PushResult)

  /** What has been asked of the streams so far: clock and random reads, sleeps and pushes in order. */
  datatype Usage = Usage(ticks: nat, draws: nat, slept: seq<Duration>, pushed: seq<Notification>)

  class Environment {
    const streams: Streams
    var ticks: nat
    var draws: nat
    var slept: seq<Duration>
    var pushed: seq<Notification>

    constructor (streams: Streams)
      ensures this.streams == streams
      ensures ticks == 0 && draws == 0 && slept == [] && pushed == []
    {
      this.streams := streams;
      ticks, draws, slept, pushed := 0, 0, [], [];
    }

    function Used(): Usage
      reads this
    {
      Usage(ticks, draws, slept, pushed)
    }

    method Now() returns (t: Time)
      modifies this`ticks
      ensures t == streams.clock(old(ticks)) && ticks == old(ticks) + 1
    {
      t := streams.clock(ticks);
      ticks := ticks + 1;
    }

    method Draw() returns (u: real)
      modifies this`draws
      ensures u == streams.draw(old(draws)) && draws == old(draws) + 1
    {
      u := streams.draw(draws);
      draws := draws + 1;
    }

    method Sleep(d: Duration) returns (ok: bool)
      modifies this`slept
      ensures ok == streams.sleepOk(|old(slept)|, d) && slept == old(slept) + [d]
    {
      ok := streams.sleepOk(|slept|, d);
      slept := slept + [d];
    }

    method Push(n: Notification) returns (r: PushResult)
      modifies this`pushed
      ensures r == streams.respond(|old(pushed)|, n) && pushed == old(pushed) + [n]
    {
      r := streams.respond(|pushed|, n);
      pushed := pushed + [n];
    }
  }

  /** The backoff computed for attempt i (from 0) of a loop that starts at u. */
  function BackoffAt(s: Streams, u: Usage, policy: Policy, i: nat): Duration {
    Jitter(s.draw(u.draws + i), Base(policy, i + 1))
  }

  /** What attempt i of that loop would get: it reads the clock twice and pushes once. */
  function AttemptAt(s: Streams, u: Usage, policy: Policy, n: Notification, i: nat): Attempt {
    Attempt(
      i == 0 || s.sleepOk(|u.slept| + i - 1, BackoffAt(s, u, policy, i)),
      s.clock(u.ticks + 2 * i),
      s.clock(u.ticks + 2 * i + 1),
      s.respond(|u.pushed| + i, n))
  }

  function FutureAt(s: Streams, u: Usage, policy: Policy, n: Notification): Future {
    (i: nat) => AttemptAt(s, u, policy, n, i)
  }

  /** The sleeps asked for before attempts 1 (from 0) and later, `count` of them. */
  function Backoffs(s: Streams, u: Usage, policy: Policy, count: nat): (sleeps: seq<Duration>)
    ensures |sleeps| == count
    ensures forall i | 0 <= i < count :: sleeps[i] == BackoffAt(s, u, policy, i + 1)
  {
    seq(count, i requires 0 <= i => BackoffAt(s, u, policy, i + 1))
  }

  function Copies(n: Notification, count: nat): (copies: seq<Notification>)
    ensures |copies| == count && forall i | 0 <= i < count :: copies[i] == n
  {
    seq(count, _ => n)
  }

  /**
   * The environment after the loop made `pushes` pushes, and one more sleep if that aborted it:
   * a draw per turn, a sleep before every turn but the first, two clock readings per push.
   */
  function AfterLoop(s: Streams, u: Usage, policy: Policy, n: Notification, pushes: nat, aborted: bool): Usage {
    var turns := pushes + if aborted then 1 else 0;
    Usage(u.ticks + 2 * pushes,
          u.draws + turns,
          u.slept + Backoffs(s, u, policy, if turns > 0 then turns - 1 else 0),
          u.pushed + Copies(n, pushes))
  }

  /** One more turn of the loop, seen from the environment. */
  lemma AfterNextTurn(s: Streams, u: Usage, policy: Policy, n: Notification, k: nat, at: Usage)
    requires at == AfterLoop(s, u, policy, n, k, false)
    ensures var d := BackoffAt(s, u, policy, k);
            && d == Jitter(s.draw(at.draws), Base(policy, k + 1))
            && AfterLoop(s, u, policy, n, k + 1, false)
               == Usage(at.ticks + 2, at.draws + 1, if k > 0 then at.slept + [d] else at.slept, at.pushed + [n])
            && (k > 0 ==> AfterLoop(s, u, policy, n, k, true) == at.(draws := at.draws + 1, slept := at.slept + [d]))
            && AttemptAt(s, u, policy, n, k)
               == Attempt(k == 0 || s.sleepOk(|at.slept|, d), s.clock(at.ticks), s.clock(at.ticks + 1),
                          s.respond(|at.pushed|, n))
  {
    assert Copies(n, k + 1) == Copies(n, k) + [n];
    if k > 0 {
      assert Backoffs(s, u, policy, k) == Backoffs(s, u, policy, k - 1) + [BackoffAt(s, u, policy, k)];
    }
  }

  /** context-aware sleep, the default: nothing to wait for always succeeds, else cancellation may win. */
  function DefaultSleep(cancelledFirst: nat -> bool): (nat, Duration) -> bool {
    (i: nat, d: Duration) => d <= 0 || !cancelledFirst(i)
  }

  /** Outcome and run of a dispatch of n that starts at u; the clock is read once before the loop. */
  function DispatchedAt(
    s: Streams, u: Usage, policy: Policy, registered: set<string>, n: Notification): (Outcome, Run) {
    Dispatched(n, s.clock(u.ticks), registered, policy.maxAttempts, FutureAt(s, u.(ticks := u.ticks + 1), policy, n))
  }

  /** Attempts read off the future were answered by the stream, one push each from u on. */
  lemma AnsweredByStream(s: Streams, u: Usage, policy: Policy, n: Notification, made: seq<Attempt>)
    requires made == Prefix(FutureAt(s, u, policy, n), |made|)
    ensures forall i | 0 <= i < |made| :: made[i].response == s.respond(|u.pushed| + i, n)
  {
    forall i | 0 <= i < |made| ensures made[i].response == s.respond(|u.pushed| + i, n) {
      assert made[i] == FutureAt(s, u, policy, n)(i) == AttemptAt(s, u, policy, n, i);
    }
  }

  /** The environment after that dispatch. */
  function UsedBy(s: Streams, u: Usage, policy: Policy, n: Notification, run: Run): Usage {
    AfterLoop(s, u.(ticks := u.ticks + 1), policy, n, |run.attempts|, run.aborted)
  }

  class Dispatcher {
    const registered: set<string>
    const policy: Policy
    const env: Environment
    const recorder: Recorder
    const metrics: Metrics

    constructor (registered: set<string>, policy: Policy, env: Environment, recorder: Recorder, metrics: Metrics)
      ensures this.registered == registered && this.policy == policy
      ensures this.env == env && this.recorder == recorder && this.metrics == metrics
    {
      this.registered, this.policy := registered, policy;
      this.env, this.recorder, this.metrics := env, recorder, metrics;
    }

    /**
     * Records exactly one outcome for a notification, the one the environment's answers determine,
     * after exactly the pushes, sleeps and counts they determine. Fails only without a notification.
     */
    method Dispatch(input: Option<Notification>) returns (ok: bool, ghost o: Outcome, ghost run: Run)
      modifies env, recorder, metrics
      ensures ok == input.Some?
      ensures !ok ==> recorder.records == old(recorder.records) && metrics.counters == old(metrics.counters)
      ensures !ok ==> env.Used() == old(env.Used()).(ticks := old(env.ticks) + 1)
      ensures ok ==> (o, run) == DispatchedAt(env.streams, old(env.Used()), policy, registered, input.value)
      ensures ok ==> recorder.records == old(recorder.records) + [o]
      ensures ok ==>
        metrics.counters == CountOutcome(CountAttempts(old(metrics.counters), run.attempts), o.reason, o.attempts)
      ensures ok ==> env.Used() == UsedBy(env.streams, old(env.Used()), policy, input.value, run)
    {
      ghost var before := env.Used();
      var now := env.Now();
      if input.None? {
        o, run := ExpiredOutcome("", now), Run([], false);
        return false, o, run;
      }
      o, run := Began(input.value, now, before);
      ok := true;
    }

    /** A dispatch whose clock reading, the one before the loop, has been taken. */
    method Began(n: Notification, now: Time, ghost before: Usage) returns (ghost o: Outcome, ghost run: Run)
      requires env.Used() == before.(ticks := before.ticks + 1) && now == env.streams.clock(before.ticks)
      modifies env, recorder, metrics
      ensures (o, run) == DispatchedAt(env.streams, before, policy, registered, n)
      ensures env.Used() == UsedBy(env.streams, before, policy, n, run)
      ensures recorder.records == old(recorder.records) + [o]
      ensures metrics.counters == CountOutcome(CountAttempts(old(metrics.counters), run.attempts), o.reason, o.attempts)
    {
      o, run := Route(n, now, FutureAt(env.streams, env.Used(), policy, n));
    }

    /** Expired, without a provider, or on to the retry loop. */
    method Route(n: Notification, now: Time, ghost future: Future) returns (ghost o: Outcome, ghost run: Run)
      requires future == FutureAt(env.streams, env.Used(), policy, n)
      modifies env, recorder, metrics
      ensures (o, run) == Dispatched(n, now, registered, policy.maxAttempts, future)
      ensures recorder.records == old(recorder.records) + [o]
      ensures metrics.counters == CountOutcome(CountAttempts(old(metrics.counters), run.attempts), o.reason, o.attempts)
      ensures env.Used() == AfterLoop(env.streams, old(env.Used()), policy, n, |run.attempts|, run.aborted)
    {
      if n.expiresAt.Some? && n.expiresAt.value != ZERO_TIME && now > n.expiresAt.value {
        o, run := ExpiredOutcome(n.id, now), Run([], false);
        RecordUnpushed(n, Outcome(n.id, Expired, REASON_EXPIRED, "", 0, now, now));
      } else if !(n.target.Pushover? && "pushover" in registered) {
        o, run := UnresolvedOutcome(n.id, now), Run([], false);
        RecordUnpushed(n, Outcome(n.id, PermanentlyFailed, REASON_REJECTED_PAYLOAD, "", 0, now, now));
      } else {
        run := RetryLoop(n, future);
        o := OutcomeOf(n.id, run);
        assert o.attempts == |run.attempts|;
      }
    }

    /** An outcome decided without any push; the environment is as it was. */
    method RecordUnpushed(n: Notification, o: Outcome)
      requires o.attempts == 0
      modifies recorder, metrics
      ensures recorder.records == old(recorder.records) + [o]
      ensures metrics.counters == CountOutcome(old(metrics.counters), o.reason, 0)
      ensures env.Used() == AfterLoop(env.streams, env.Used(), policy, n, 0, false)
    {
      recorder.Record(o);
      metrics.RecordOutcome(o.reason, 0);
    }

    /** Start of a turn: advance the iterator and, before any attempt but the first, sleep. */
    method BackOff(iter: Iterator, n: Notification, ghost u: Usage) returns (slept: bool)
      requires iter.policy == policy
      requires env.Used() == AfterLoop(env.streams, u, policy, n, iter.attempt, false)
      modifies iter, env`draws, env`slept
      ensures iter.attempt == old(iter.attempt) + 1
      ensures slept == (old(iter.attempt) == 0 || FutureAt(env.streams, u, policy, n)(old(iter.attempt)).slept)
      ensures !slept ==> env.Used() == AfterLoop(env.streams, u, policy, n, old(iter.attempt), true)
      ensures slept ==>
        AfterLoop(env.streams, u, policy, n, old(iter.attempt) + 1, false)
        == env.Used().(ticks := old(env.ticks) + 2, pushed := old(env.pushed) + [n])
    {
      AfterNextTurn(env.streams, u, policy, n, iter.attempt, env.Used());
      var draw := env.Draw();
      var backoff, rounds := iter.Next(draw);
      slept := true;
      if iter.attempt > 1 {
        slept := env.Sleep(backoff);
      }
    }

    /** The timed push of a turn. */
    method PushOnce(n: Notification, ghost u: Usage, ghost k: nat)
      returns (start: Time, res: PushResult, end: Time)
      requires env.Used().(ticks := env.ticks + 2, pushed := env.pushed + [n])
            == AfterLoop(env.streams, u, policy, n, k + 1, false)
      modifies env`ticks, env`pushed
      ensures env.Used() == AfterLoop(env.streams, u, policy, n, k + 1, false)
      ensures FutureAt(env.streams, u, policy, n)(k)
           == Attempt(FutureAt(env.streams, u, policy, n)(k).slept, start, end, res)
    {
      assert |env.pushed + [n]| == |u.pushed + Copies(n, k + 1)|;
      start := env.Now();
      res := env.Push(n);
      end := env.Now();
    }

    /** End of a turn: a success or a permanent failure is recorded and ends the loop. */
    method Settle(n: Notification, res: PushResult, attempt: nat, first: Time, last: Time, ghost made: seq<Attempt>)
      returns (done: bool, lastResp: string)
      requires |made| == attempt > 0 && made[attempt - 1].response == res
      requires first == FirstTime(made) && last == LastTime(made)
      modifies recorder, metrics
      ensures done == IsTerminal(res)
      ensures !done ==> recorder.records == old(recorder.records) && lastResp == LastResponse(made)
      ensures !done ==> metrics.counters == CountAttempt(old(metrics.counters), ClassOf(res))
      ensures done ==>
        var o := OutcomeOf(n.id, Run(made, false));
        && recorder.records == old(recorder.records) + [o]
        && metrics.counters == CountOutcome(CountAttempt(old(metrics.counters), ClassOf(res)), o.reason, o.attempts)
    {
      lastResp := "";
      if res.Accepted? {
        metrics.RecordProviderAttempt(Success);
        recorder.Record(Outcome(n.id, Delivered, "", SafeResponse(res.result), attempt, first, last));
        metrics.RecordOutcome("", attempt);
        return true, lastResp;
      }
      var pe := As(res.err, PermanentKind);
      if pe.Some? {
        metrics.RecordProviderAttempt(Permanent);
        recorder.Record(Outcome(n.id, PermanentlyFailed, pe.value.reason, pe.value.response, attempt, first, last));
        metrics.RecordOutcome(pe.value.reason, attempt);
        return true, lastResp;
      }
      var te := As(res.err, TransientKind);
      metrics.RecordProviderAttempt(Transient);
      lastResp := if te.Some? then te.value.response else Message(res.err);
      done := false;
    }

    /** The retry loop and its four exits. */
    method RetryLoop(n: Notification, ghost future: Future) returns (ghost run: Run)
      requires future == FutureAt(env.streams, env.Used(), policy, n)
      modifies env, recorder, metrics
      ensures run == RunOf(policy.maxAttempts, future)
      ensures env.Used() == AfterLoop(env.streams, old(env.Used()), policy, n, |run.attempts|, run.aborted)
      ensures var o := OutcomeOf(n.id, run);
        && recorder.records == old(recorder.records) + [o]
        && metrics.counters == CountOutcome(CountAttempts(old(metrics.counters), run.attempts), o.reason, o.attempts)
    {
      ghost var u := env.Used();
      ghost var made: seq<Attempt> := [];
      var iter := new Iterator(policy);
      var first, last := ZERO_TIME, ZERO_TIME;
      var lastResp := "";

      while !iter.Done()
        invariant iter.policy == policy && iter.attempt == |made|
        invariant RunFrom(policy.maxAttempts, future, made) == RunOf(policy.maxAttempts, future)
        invariant first == FirstTime(made) && last == LastTime(made) && lastResp == LastResponse(made)
        invariant made != [] ==> !IsTerminal(made[|made| - 1].response)
        invariant recorder.records == old(recorder.records)
        invariant metrics.counters == CountAttempts(old(metrics.counters), made)
        invariant env.Used() == AfterLoop(env.streams, u, policy, n, |made|, false)
        decreases policy.maxAttempts - iter.attempt
      {
        var slept := BackOff(iter, n, u);
        if !slept {
          // The context was cancelled during the backoff: end with what the last attempt left.
          run := Run(made, true);
          RecordExhausted(n, iter.attempt - 1, lastResp, first, last, run);
          return;
        }

        var attemptStart, res;
        attemptStart, res, last := PushOnce(n, u, |made|);
        if first == ZERO_TIME {
          first := attemptStart;
        }
        ghost var next := Attempt(future(|made|).slept, attemptStart, last, res);
        assert (made + [next])[..|made|] == made;
        made := made + [next];

        var done;
        done, lastResp := Settle(n, res, iter.attempt, first, last, made);
        if done {
          run := Run(made, false);
          return;
        }
      }

      run := Run(made, false);
      RecordExhausted(n, iter.attempt, lastResp, first, last, run);
    }

    method RecordExhausted(n: Notification, attempts: nat, lastResp: string, first: Time, last: Time, ghost run: Run)
      requires attempts == |run.attempts| && lastResp == LastResponse(run.attempts)
      requires first == FirstTime(run.attempts) && last == LastTime(run.attempts)
      requires run.aborted || run.attempts == [] || !IsTerminal(run.attempts[|run.attempts| - 1].response)
      modifies recorder, metrics
      ensures recorder.records == old(recorder.records) + [OutcomeOf(n.id, run)]
      ensures metrics.counters == CountOutcome(old(metrics.counters), OutcomeOf(n.id, run).reason, attempts)
    {
      recorder.Record(Outcome(n.id, PermanentlyFailed, REASON_BUDGET_EXHAUSTED, lastResp, attempts, first, last));
      metrics.RecordOutcome(REASON_BUDGET_EXHAUSTED, attempts);
    }
  }
}
