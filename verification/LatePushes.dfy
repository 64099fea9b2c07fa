/** Expiry is tested once, before the retry loop: how late can a push then be? */
module LatePushes {
  import opened Text
  import opened Notifications
  import opened ErrorTrees
  import opened Ledger
  import opened Retry
  import opened Dispatching
  import opened Dispatcher
  import opened DispatchTiming

  /**
   * What is known of the environment: at most `lead` before the first push, at most `perPush` for each push, and
   * whether the random source can return 1. The default source, rand.Float64, stays below it; one given by option may.
   */
  datatype Pace = Pace(lead: nat, perPush: nat, full: bool)

  /** The longest a sleep with this base can keep the loop: below a draw of 1 a nanosecond is lost to truncation. */
  function LongestPause(base: Duration, full: bool): nat {
    if base <= 0 then 0 else if full then base else base - 1
  }

  /** The longest the sleeps before push i (from 0) can keep the loop. */
  function LongestSleep(p: Policy, full: bool, i: nat): nat {
    if i == 0 then 0 else LongestSleep(p, full, i - 1) + LongestPause(Base(p, i + 1), full)
  }

  /** The latest start of push i (from 0), counted from the expiry test. */
  function LatestStart(p: Policy, pace: Pace, i: nat): nat {
    if i == 0 then pace.lead
    else LatestStart(p, pace, i - 1) + pace.perPush + LongestPause(Base(p, i + 1), pace.full)
  }

  lemma {:induction false} LatestStartSummed(p: Policy, pace: Pace, i: nat)
    ensures LatestStart(p, pace, i) == pace.lead + i * pace.perPush + LongestSleep(p, pace.full, i)
  {
    if i > 0 {
      LatestStartSummed(p, pace, i - 1);
      assert i * pace.perPush == (i - 1) * pace.perPush + pace.perPush;
    }
  }

  lemma {:induction false} LatestStartGrows(p: Policy, pace: Pace, i: nat, j: nat)
    requires i <= j
    ensures LatestStart(p, pace, i) <= LatestStart(p, pace, j)
    decreases j
  {
    if i < j {
      LatestStartGrows(p, pace, i, j - 1);
    }
  }

  lemma {:induction false} LongestSleepSummed(p: Policy, full: bool, i: nat)
    requires InRange(p)
    ensures LongestSleep(p, full, i) <= Times(i, p.maxBackoff)
    ensures LongestSleep(p, full, i) <= Doubled(p.initialBackoff, i + 1) - 2 * p.initialBackoff
  {
    if i == 0 {
      assert Doubled(p.initialBackoff, 1) == 2 * p.initialBackoff;
    } else {
      LongestSleepSummed(p, full, i - 1);
      BaseBounded(p, i + 1);
      DoubledGrows(p.initialBackoff, i, i);
    }
  }

  lemma LongestSleepWithinCeiling(p: Policy, full: bool, i: nat)
    requires InRange(p)
    ensures LongestSleep(p, full, i) <= SleepCeiling(p, i + 1)
  {
    LongestSleepSummed(p, full, i);
    CeilingSummed(p, i + 1);
  }

  // --- Paced environments ---------------------------------------------------------------------

  /** The setting: who dispatches what, with which budget, tested for expiry at `now`. */
  datatype Setting = Setting(p: Policy, registered: set<string>, n: Notification, now: Time)

  /** A notification that expires, and that the test lets through to the loop. */
  predicate GetsThrough(g: Setting) {
    && g.n.expiresAt.Some? && g.n.expiresAt.value != ZERO_TIME && g.now <= g.n.expiresAt.value
    && Resolves(g.n, g.registered) && g.p.maxAttempts >= 1
  }

  function Outcomes(g: Setting, s: Streams, u: Usage): (Outcome, Run) {
    DispatchedAt(s, u, g.p, g.registered, g.n)
  }

  /** The draws the random source can return. */
  ghost predicate DrawsFrom(s: Streams, full: bool) {
    forall i: nat :: 0.0 <= s.draw(i) <= 1.0 && (full || s.draw(i) < 1.0)
  }

  /** The environment keeps the pace: first push within the lead, every push and pause within its bound. */
  ghost predicate KeepsPace(g: Setting, pace: Pace, s: Streams, u: Usage) {
    var made := Outcomes(g, s, u).1.attempts;
    && DrawsFrom(s, pace.full) && s.clock(u.ticks) == g.now
    && Timely(made, s, u.(ticks := u.ticks + 1), g.p, pace.perPush)
    && (made != [] ==> g.now <= made[0].start <= g.now + pace.lead)
  }

  predicate IsLate(g: Setting, a: Attempt) {
    g.n.expiresAt.Some? && a.start > g.n.expiresAt.value
  }

  ghost predicate MakesLatePush(g: Setting, pace: Pace, s: Streams, u: Usage) {
    && KeepsPace(g, pace, s, u)
    && exists i | 0 <= i < |Outcomes(g, s, u).1.attempts| :: IsLate(g, Outcomes(g, s, u).1.attempts[i])
  }

  /** Even the push that delivers starts after the expiry. */
  ghost predicate DeliversLate(g: Setting, pace: Pace, s: Streams, u: Usage) {
    var (o, run) := Outcomes(g, s, u);
    && KeepsPace(g, pace, s, u)
    && o.status == Delivered && run.attempts != [] && IsLate(g, run.attempts[|run.attempts| - 1])
  }

  lemma TruncatedBelow(x: real, bound: nat)
    requires 0.0 <= x < bound as real
    ensures Truncate(x) < bound
  {
  }

  lemma ProductBelow(u: real, y: real)
    requires 0.0 <= u < 1.0 && 0.0 < y
    ensures u * y < y
  {
    assert (1.0 - u) * y > 0.0;
  }

  lemma PauseBounded(draw: real, base: Duration, full: bool)
    requires 0.0 <= draw <= 1.0 && (full || draw < 1.0)
    ensures Pause(Jitter(draw, base)) <= LongestPause(base, full)
  {
    if base <= 0 || full {
      JitterPauses(draw, base);
    } else {
      var y: real := base as real;
      var x := draw * y;
      ProductBounds(draw, y);
      ProductBelow(draw, y);
      assert 0.0 <= x < y;
      TruncatedBelow(x, base);
      assert Jitter(draw, base) == Truncate(x);
    }
  }

  lemma {:induction false} StartBounded(g: Setting, pace: Pace, s: Streams, u: Usage, made: seq<Attempt>, i: nat)
    requires DrawsFrom(s, pace.full) && i < |made| && Timely(made, s, u, g.p, pace.perPush)
    requires made[0].start <= g.now + pace.lead
    ensures made[i].start <= g.now + LatestStart(g.p, pace, i)
  {
    if i > 0 {
      StartBounded(g, pace, s, u, made, i - 1);
      PauseBounded(s.draw(u.draws + i), Base(g.p, i + 1), pace.full);
    }
  }

  lemma PushesWithinBudget(g: Setting, s: Streams, u: Usage)
    requires s.clock(u.ticks) == g.now
    ensures |Outcomes(g, s, u).1.attempts| <= if g.p.maxAttempts > 0 then g.p.maxAttempts else 0
  {
    AttemptsAreCounted(g.n, g.now, g.registered, g.p.maxAttempts, FutureAt(s, u.(ticks := u.ticks + 1), g.p, g.n));
  }

  /** No push of a paced dispatch starts later than the latest start of the last one the budget allows. */
  lemma NoLaterPush(g: Setting, pace: Pace, s: Streams, u: Usage, i: nat)
    requires g.p.maxAttempts >= 1 && KeepsPace(g, pace, s, u) && i < |Outcomes(g, s, u).1.attempts|
    ensures Outcomes(g, s, u).1.attempts[i].start <= g.now + LatestStart(g.p, pace, g.p.maxAttempts - 1)
  {
    PushesWithinBudget(g, s, u);
    var made := Outcomes(g, s, u).1.attempts;
    StartBounded(g, pace, s, u.(ticks := u.ticks + 1), made, i);
    LatestStartGrows(g.p, pace, i, g.p.maxAttempts - 1);
  }

  // --- The slowest environment that keeps the pace ------------------------------------------------

  /** Reading 0 is the expiry test; attempt i reads 2i+1 before its push and 2i+2 after it. */
  function SlowClock(g: Setting, pace: Pace): nat -> Time {
    (t: nat) =>
      if t == 0 then g.now
      else if t % 2 == 1 then g.now + LatestStart(g.p, pace, t / 2)
      else g.now + LatestStart(g.p, pace, t / 2 - 1) + pace.perPush
  }

  /** The draw that makes the longest pause. */
  function LongestDraw(base: Duration, full: bool): real {
    if base <= 0 then 0.0 else if full then 1.0 else (base - 1) as real / base as real
  }

  lemma LongestDrawPauses(base: Duration, full: bool)
    ensures 0.0 <= LongestDraw(base, full) <= 1.0 && (full || LongestDraw(base, full) < 1.0)
    ensures Pause(Jitter(LongestDraw(base, full), base)) == LongestPause(base, full)
  {
    if base > 0 && !full {
      var whole, less := base as real, (base - 1) as real;
      assert less / whole * whole == less;
      assert 0.0 <= less / whole < 1.0;
      assert Truncate(less) == base - 1;
    }
  }

  /** The longest draws, no failed sleep, and a provider that accepts only the last push of the budget. */
  function Slowest(g: Setting, pace: Pace): Streams {
    Streams(
      SlowClock(g, pace),
      (i: nat, d: Duration) => true,
      (i: nat) => LongestDraw(Base(g.p, i + 1), pace.full),
      (i: nat, n: Notification) => if i < g.p.maxAttempts - 1 then Failed(TransientError("", None)) else Accepted(None))
  }

  const UNUSED := Usage(0, 0, [], [])

  function SlowAttempt(g: Setting, pace: Pace, i: nat): Attempt {
    var start := g.now + LatestStart(g.p, pace, i);
    Attempt(true, start, start + pace.perPush,
            if i < g.p.maxAttempts - 1 then Failed(TransientError("", None)) else Accepted(None))
  }

  lemma SlowestAttempts(g: Setting, pace: Pace, i: nat)
    ensures AttemptAt(Slowest(g, pace), UNUSED.(ticks := 1), g.p, g.n, i) == SlowAttempt(g, pace, i)
  {
    assert (1 + 2 * i) / 2 == i && (2 + 2 * i) / 2 == i + 1;
  }

  lemma SlowestRun(g: Setting, pace: Pace)
    requires GetsThrough(g)
    ensures var (o, run) := Outcomes(g, Slowest(g, pace), UNUSED);
      && o.status == Delivered && |run.attempts| == g.p.maxAttempts
      && forall i: nat | i < g.p.maxAttempts :: run.attempts[i] == SlowAttempt(g, pace, i)
  {
    var future := FutureAt(Slowest(g, pace), UNUSED.(ticks := 1), g.p, g.n);
    forall i: nat ensures future(i) == SlowAttempt(g, pace, i) {
      SlowestAttempts(g, pace, i);
    }
    var last := g.p.maxAttempts - 1;
    forall i: nat | i < last ensures !Stops(future, i) {
      CauseIsHidden(TransientError("", None), None);
    }
    assert Stops(future, last);
    RunReachesFirstStop(g.p.maxAttempts, future, [], last);
    FirstStopFixesOutcome(g.n.id, g.p.maxAttempts, future, last);
  }

  lemma SlowestKeepsPace(g: Setting, pace: Pace)
    requires GetsThrough(g)
    ensures KeepsPace(g, pace, Slowest(g, pace), UNUSED)
  {
    SlowestRun(g, pace);
    var s, start := Slowest(g, pace), UNUSED.(ticks := 1);
    var made := Outcomes(g, s, UNUSED).1.attempts;
    forall i: nat ensures 0.0 <= s.draw(i) <= 1.0 && (pace.full || s.draw(i) < 1.0) {
      LongestDrawPauses(Base(g.p, i + 1), pace.full);
    }
    forall i | 0 < i < |made|
      ensures made[i - 1].end <= made[i].start
      ensures made[i].start - made[i - 1].end <= Pause(BackoffAt(s, start, g.p, i))
    {
      LongestDrawPauses(Base(g.p, i + 1), pace.full);
    }
  }

  // --- The exact margin ------------------------------------------------------------------------------

  /**
   * A push can start after the expiry if and only if the expiry comes before the latest start of the budget's last
   * push; and then even a delivery can.
   */
  lemma LatePushIff(g: Setting, pace: Pace, margin: int)
    requires GetsThrough(g) && margin == g.n.expiresAt.value - g.now
    ensures (exists s, u :: MakesLatePush(g, pace, s, u)) <==>
            margin < pace.lead + (g.p.maxAttempts - 1) * pace.perPush
                     + LongestSleep(g.p, pace.full, g.p.maxAttempts - 1)
    ensures (exists s, u :: DeliversLate(g, pace, s, u)) <==> (exists s, u :: MakesLatePush(g, pace, s, u))
  {
    var last := g.p.maxAttempts - 1;
    LatestStartSummed(g.p, pace, last);
    forall s, u | MakesLatePush(g, pace, s, u) ensures margin < LatestStart(g.p, pace, last) {
      var i :| 0 <= i < |Outcomes(g, s, u).1.attempts| && IsLate(g, Outcomes(g, s, u).1.attempts[i]);
      NoLaterPush(g, pace, s, u, i);
    }
    forall s, u | DeliversLate(g, pace, s, u) ensures MakesLatePush(g, pace, s, u) {
    }
    if margin < LatestStart(g.p, pace, last) {
      SlowestRun(g, pace);
      SlowestKeepsPace(g, pace);
      assert DeliversLate(g, pace, Slowest(g, pace), UNUSED);
      assert MakesLatePush(g, pace, Slowest(g, pace), UNUSED);
    }
  }

  /** A margin of the lead, the earlier pushes and the sleep ceiling is always enough. */
  lemma CeilingIsEnough(g: Setting, pace: Pace, s: Streams, u: Usage)
    requires InRange(g.p) && GetsThrough(g)
    ensures var margin := g.n.expiresAt.value - g.now;
      pace.lead + (g.p.maxAttempts - 1) * pace.perPush + SleepCeiling(g.p, g.p.maxAttempts) <= margin ==>
      !MakesLatePush(g, pace, s, u)
  {
    var last := g.p.maxAttempts - 1;
    LatestStartSummed(g.p, pace, last);
    LongestSleepWithinCeiling(g.p, pace.full, last);
    if MakesLatePush(g, pace, s, u) {
      var i :| 0 <= i < |Outcomes(g, s, u).1.attempts| && IsLate(g, Outcomes(g, s, u).1.attempts[i]);
      NoLaterPush(g, pace, s, u, i);
    }
  }

  const EXPIRING := Notification("id", None, Some(10), "", "", None, Pushover(None))

  /** The smallest case: tested at its very expiry, retried once, delivered ten nanoseconds too late. */
  lemma DeliveredAfterExpiry()
    ensures var g := Setting(Policy(2, 0, 0), {"pushover"}, EXPIRING, 10);
      DeliversLate(g, Pace(0, 10, false), Slowest(g, Pace(0, 10, false)), UNUSED)
  {
    var g := Setting(Policy(2, 0, 0), {"pushover"}, EXPIRING, 10);
    SlowestRun(g, Pace(0, 10, false));
    SlowestKeepsPace(g, Pace(0, 10, false));
    assert LatestStart(g.p, Pace(0, 10, false), 1) >= 10;
  }
}
