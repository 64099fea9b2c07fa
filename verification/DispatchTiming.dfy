/** How long one dispatch can take, and how long it can sleep. */
module DispatchTiming {
  import opened Notifications
  import opened Retry
  import opened Dispatching
  import opened Dispatcher

  function Sum(ds: seq<Duration>): Duration {
    if ds == [] then 0 else Sum(ds[..|ds| - 1]) + ds[|ds| - 1]
  }

  /** How long a sleep of d can keep the loop: a negative one does not. */
  function Pause(d: Duration): nat {
    if d > 0 then d else 0
  }

  /** How long these sleeps can keep the loop. */
  function Kept(ds: seq<Duration>): nat {
    if ds == [] then 0 else Kept(ds[..|ds| - 1]) + Pause(ds[|ds| - 1])
  }

  lemma {:induction false} SumWithinKept(ds: seq<Duration>)
    ensures Sum(ds) <= Kept(ds)
    ensures (forall i | 0 <= i < |ds| :: ds[i] >= 0) ==> Sum(ds) == Kept(ds)
  {
    if ds != [] {
      SumWithinKept(ds[..|ds| - 1]);
    }
  }

  /** k times x, added up one by one. */
  function Times(k: nat, x: int): (r: int)
    ensures r == k * x
  {
    if k == 0 then 0
    else
      assert k * x == (k - 1) * x + x;
      Times(k - 1, x) + x
  }

  lemma {:induction false} TimesGrows(a: nat, b: nat, x: nat)
    requires a <= b
    ensures 0 <= Times(a, x) <= Times(b, x)
    decreases b
  {
    if a < b {
      TimesGrows(a, b - 1, x);
    } else if a > 0 {
      TimesGrows(a - 1, b - 1, x);
    }
  }

  /** The two ceilings for the sleeps of a dispatch with n pushes allowed: (n-1)·Max and Initial·(2^n - 2). */
  function SleepCeiling(p: Policy, n: nat): int
    requires n >= 1
  {
    Min((n - 1) * p.maxBackoff, p.initialBackoff * (Pow2(n) - 2))
  }

  lemma CeilingSummed(p: Policy, n: nat)
    requires n >= 1
    ensures SleepCeiling(p, n)
         == Min(Times(n - 1, p.maxBackoff), Doubled(p.initialBackoff, n) - 2 * p.initialBackoff)
  {
    DoubledIsProduct(p.initialBackoff, n);
  }

  /** The random source returns numbers of the unit interval. */
  ghost predicate UnitDraws(s: Streams) {
    forall i: nat :: 0.0 <= s.draw(i) <= 1.0
  }

  /** Jitter never lengthens a pause. */
  lemma JitterPauses(draw: real, base: Duration)
    requires 0.0 <= draw <= 1.0
    ensures Pause(Jitter(draw, base)) <= Pause(base)
  {
    if base >= 0 {
      JitterWithinBase(draw, base);
    } else {
      var less: real := -(base as real);
      ProductBounds(draw, less);
      assert draw * base as real == -(draw * less);
    }
  }

  lemma PauseBounds(s: Streams, u: Usage, p: Policy, i: nat)
    requires InRange(p) && UnitDraws(s)
    ensures Pause(BackoffAt(s, u, p, i)) <= p.maxBackoff
    ensures Pause(BackoffAt(s, u, p, i)) <= Doubled(p.initialBackoff, i)
  {
    JitterPauses(s.draw(u.draws + i), Base(p, i + 1));
    BaseBounded(p, i + 1);
    DoubledGrows(p.initialBackoff, i, i);
  }

  lemma BackoffNotNegative(s: Streams, u: Usage, p: Policy, n: nat, i: nat)
    requires InRange(p) && UnitDraws(s) && i < n && FitsBudget(p, n)
    ensures 0 <= BackoffAt(s, u, p, i)
  {
    BudgetIsExact(p, n, i + 1);
    DoubledGrows(p.initialBackoff, i, i);
    JitterWithinBase(s.draw(u.draws + i), Base(p, i + 1));
  }

  /**
   * Sleeping is bounded by the cap per sleep and by the geometric sum of the doublings, even where doublings wrap
   * around. As long as they do not, what the sleeps add up to is the time they keep the loop.
   */
  lemma {:induction false} SleepsBounded(s: Streams, u: Usage, p: Policy, count: nat)
    requires InRange(p) && UnitDraws(s)
    ensures var sleeps := Backoffs(s, u, p, count);
      && Sum(sleeps) <= Kept(sleeps) <= SleepCeiling(p, count + 1)
      && (FitsBudget(p, count + 1) ==> Sum(sleeps) == Kept(sleeps))
  {
    var sleeps := Backoffs(s, u, p, count);
    SumWithinKept(sleeps);
    SleepsKept(s, u, p, count);
    if FitsBudget(p, count + 1) {
      forall i | 0 <= i < count ensures sleeps[i] >= 0 {
        BackoffNotNegative(s, u, p, count + 1, i + 1);
      }
    }
  }

  lemma {:induction false} SleepsKept(s: Streams, u: Usage, p: Policy, count: nat)
    requires InRange(p) && UnitDraws(s)
    ensures Kept(Backoffs(s, u, p, count)) <= SleepCeiling(p, count + 1)
  {
    var all := Backoffs(s, u, p, count);
    CeilingSummed(p, count + 1);
    if count == 0 {
      assert Doubled(p.initialBackoff, 1) == 2 * p.initialBackoff;
    } else {
      SleepsKept(s, u, p, count - 1);
      CeilingSummed(p, count);
      assert all[..count - 1] == Backoffs(s, u, p, count - 1);
      PauseBounds(s, u, p, count);
    }
  }

  lemma CeilingGrows(p: Policy, a: nat, b: nat)
    requires InRange(p) && 1 <= a <= b
    ensures 0 <= SleepCeiling(p, a) <= SleepCeiling(p, b)
    ensures SleepCeiling(p, 1) == 0
  {
    CeilingSummed(p, 1);
    CeilingSummed(p, a);
    CeilingSummed(p, b);
    assert Doubled(p.initialBackoff, 1) == 2 * p.initialBackoff;
    DoubledGrows(p.initialBackoff, 1, a);
    DoubledGrows(p.initialBackoff, a, b);
    TimesGrows(a - 1, b - 1, p.maxBackoff);
  }

  // --- The attempts' clock ----------------------------------------------------------------

  /** Clock readings never go back over these attempts. */
  predicate Ordered(made: seq<Attempt>) {
    && (forall i | 0 <= i < |made| :: made[i].start <= made[i].end)
    && (forall i | 0 < i < |made| :: made[i - 1].end <= made[i].start)
  }

  lemma {:induction false} FirstTimeWithin(made: seq<Attempt>)
    requires made != [] && Ordered(made)
    ensures made[0].start <= FirstTime(made) <= made[|made| - 1].end
    ensures made[0].start != ZERO_TIME ==> FirstTime(made) == made[0].start
  {
    var front := made[..|made| - 1];
    if front != [] {
      assert Ordered(front);
      FirstTimeWithin(front);
      assert front[|front| - 1].end <= made[|made| - 1].start;
    }
  }

  /** For any clock that does not go back, the first attempt is not after the last. */
  lemma FirstNotAfterLast(n: Notification, now: Time, registered: set<string>, max: int, future: Future)
    requires Ordered(Dispatched(n, now, registered, max, future).1.attempts)
    ensures var o := Dispatched(n, now, registered, max, future).0; o.firstAttempt <= o.lastAttempt
  {
    var (o, run) := Dispatched(n, now, registered, max, future);
    if run.attempts != [] {
      FirstTimeWithin(run.attempts);
    }
  }

  lemma {:induction false} SpanBounded(made: seq<Attempt>, gaps: seq<Duration>, perPush: nat)
    requires made != [] && |gaps| == |made| - 1
    requires forall i | 0 <= i < |made| :: made[i].end - made[i].start <= perPush
    requires forall i | 0 < i < |made| :: made[i].start - made[i - 1].end <= Pause(gaps[i - 1])
    ensures made[|made| - 1].end - made[0].start <= Times(|made|, perPush) + Kept(gaps)
  {
    if |made| > 1 {
      var front := made[..|made| - 1];
      SpanBounded(front, gaps[..|gaps| - 1], perPush);
      assert front[|front| - 1].end == made[|made| - 2].end;
    }
  }

  /** Pushes no longer than perPush, pauses no longer than the backoffs a loop starting at u asks for. */
  predicate Timely(made: seq<Attempt>, s: Streams, u: Usage, p: Policy, perPush: nat) {
    && Ordered(made)
    && (forall i | 0 <= i < |made| :: made[i].end - made[i].start <= perPush)
    && (forall i | 0 < i < |made| :: made[i].start - made[i - 1].end <= Pause(BackoffAt(s, u, p, i)))
  }

  lemma LoopSpan(made: seq<Attempt>, s: Streams, u: Usage, p: Policy, perPush: nat)
    requires made != [] && Timely(made, s, u, p, perPush)
    ensures 0 <= LastTime(made) - FirstTime(made)
    ensures LastTime(made) - FirstTime(made) <= Times(|made|, perPush) + Kept(Backoffs(s, u, p, |made| - 1))
  {
    FirstTimeWithin(made);
    SpanBounded(made, Backoffs(s, u, p, |made| - 1), perPush);
  }

  lemma GapsBounded(s: Streams, u: Usage, p: Policy, pushes: nat)
    requires InRange(p) && UnitDraws(s) && 1 <= pushes <= p.maxAttempts
    ensures Kept(Backoffs(s, u, p, pushes - 1)) <= SleepCeiling(p, p.maxAttempts)
  {
    SleepsKept(s, u, p, pushes - 1);
    CeilingGrows(p, pushes, p.maxAttempts);
  }

  lemma LoopDurationBounded(made: seq<Attempt>, s: Streams, u: Usage, p: Policy, perPush: nat)
    requires InRange(p) && UnitDraws(s) && 1 <= |made| <= p.maxAttempts
    requires Timely(made, s, u, p, perPush)
    ensures FirstTime(made) <= LastTime(made)
    ensures LastTime(made) - FirstTime(made) <= p.maxAttempts * perPush + SleepCeiling(p, p.maxAttempts)
  {
    LoopSpan(made, s, u, p, perPush);
    GapsBounded(s, u, p, |made|);
    TimesGrows(|made|, p.maxAttempts, perPush);
  }

  /**
   * One dispatch has bounded duration. If every push takes at most perPush and every pause between
   * pushes at most the backoff asked for, first and last attempt are at most N pushes and the
   * sleep ceiling apart, where N is the attempt budget.
   */
  lemma DispatchDurationBounded(s: Streams, u: Usage, p: Policy, registered: set<string>, n: Notification, perPush: nat)
    requires InRange(p) && UnitDraws(s) && p.maxAttempts >= 1
    requires Timely(DispatchedAt(s, u, p, registered, n).1.attempts, s, u.(ticks := u.ticks + 1), p, perPush)
    ensures var o := DispatchedAt(s, u, p, registered, n).0;
      0 <= o.lastAttempt - o.firstAttempt <= p.maxAttempts * perPush + SleepCeiling(p, p.maxAttempts)
  {
    var start := u.(ticks := u.ticks + 1);
    var now, max, future := s.clock(u.ticks), p.maxAttempts, FutureAt(s, start, p, n);
    var made := DispatchedAt(s, u, p, registered, n).1.attempts;
    RecordedTimes(n, now, registered, max, future);
    if made == [] {
      CeilingGrows(p, 1, max);
      TimesGrows(0, max, perPush);
    } else {
      assert |made| <= max by {
        AttemptsAreCounted(n, now, registered, max, future);
      }
      LoopDurationBounded(made, s, start, p, perPush);
    }
  }

  lemma LoopSleepBounded(s: Streams, u: Usage, p: Policy, n: Notification, pushes: nat, aborted: bool)
    requires InRange(p) && UnitDraws(s) && p.maxAttempts >= 1
    requires pushes <= p.maxAttempts && (aborted ==> 0 < pushes < p.maxAttempts)
    ensures var slept := AfterLoop(s, u, p, n, pushes, aborted).slept;
      && |u.slept| <= |slept| && slept[..|u.slept|] == u.slept
      && Sum(slept[|u.slept|..]) <= Kept(slept[|u.slept|..]) <= SleepCeiling(p, p.maxAttempts)
      && (FitsBudget(p, p.maxAttempts) ==> Sum(slept[|u.slept|..]) == Kept(slept[|u.slept|..]))
  {
    var turns := pushes + if aborted then 1 else 0;
    var count := if turns > 0 then turns - 1 else 0;
    assert AfterLoop(s, u, p, n, pushes, aborted).slept[|u.slept|..] == Backoffs(s, u, p, count);
    SleepsBounded(s, u, p, count);
    CeilingGrows(p, count + 1, p.maxAttempts);
    if FitsBudget(p, p.maxAttempts) {
      SmallerBudgetFits(p, count + 1, p.maxAttempts);
    }
  }

  /** All the sleeps a dispatch asks for, including one that is cut short, stay under the ceiling. */
  lemma DispatchSleepBounded(s: Streams, u: Usage, p: Policy, registered: set<string>, n: Notification, run: Run)
    requires InRange(p) && UnitDraws(s) && p.maxAttempts >= 1
    requires run == DispatchedAt(s, u, p, registered, n).1
    ensures var slept := UsedBy(s, u, p, n, run).slept;
      && |u.slept| <= |slept| && slept[..|u.slept|] == u.slept
      && Sum(slept[|u.slept|..]) <= Kept(slept[|u.slept|..]) <= SleepCeiling(p, p.maxAttempts)
      && (FitsBudget(p, p.maxAttempts) ==> Sum(slept[|u.slept|..]) == Kept(slept[|u.slept|..]))
  {
    var start := u.(ticks := u.ticks + 1);
    AttemptsAreCounted(n, s.clock(u.ticks), registered, p.maxAttempts, FutureAt(s, start, p, n));
    LoopSleepBounded(s, start, p, n, |run.attempts|, run.aborted);
  }

  const DEFAULT_POLICY := Policy(5, 500_000_000, 30_000_000_000)

  /** Under the default policy one dispatch sleeps for at most 15 s. */
  lemma DefaultPolicyCeiling()
    ensures InRange(DEFAULT_POLICY) && Fits(DEFAULT_POLICY)
    ensures SleepCeiling(DEFAULT_POLICY, DEFAULT_POLICY.maxAttempts) == 15_000_000_000
  {
    assert Doubled(500_000_000, 3) == 4_000_000_000;
    assert Doubled(500_000_000, 5) == 16_000_000_000;
    assert Doubled(500_000_000, 6) == 32_000_000_000;
    assert CapReachedAt(DEFAULT_POLICY, 6);
  }

  /** The context-aware sleep cannot abort a dispatch whose backoffs are nothing, whatever is cancelled. */
  lemma ZeroBackoffNeverAborts(s: Streams, u: Usage, p: Policy, n: Notification, cancelledFirst: nat -> bool)
    requires s.sleepOk == DefaultSleep(cancelledFirst)
    requires forall i: nat :: BackoffAt(s, u, p, i) <= 0
    ensures !RunOf(p.maxAttempts, FutureAt(s, u, p, n)).aborted
  {
    var future := FutureAt(s, u, p, n);
    if exists i: nat | i < p.maxAttempts :: Stops(future, i) {
      var k := FirstStopExists(future, p.maxAttempts);
      assert BackoffAt(s, u, p, k) <= 0;
      FirstStopFixesOutcome(n.id, p.maxAttempts, future, k);
      RunReachesFirstStop(p.maxAttempts, future, [], k);
    } else {
      NoStopExhaustsBudget(n.id, p.maxAttempts, future);
    }
  }
}
