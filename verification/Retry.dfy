/** The bounded-backoff iterator of internal/deliverer/retry. */
module Retry {

  /** time.Duration: nanoseconds in an int64. */
  type Duration = int

  const TWO_62: int := 0x4000_0000_0000_0000
  const TWO_63: int := 0x8000_0000_0000_0000
  const TWO_64: int := 0x1_0000_0000_0000_0000

  /** Two's-complement wrap-around of an int64 result. */
  function Wrap64(x: int): (r: int)
    ensures -TWO_63 <= r < TWO_63
    ensures -TWO_63 <= x < TWO_63 ==> r == x
  {
    (x + TWO_63) % TWO_64 - TWO_63
  }

  /** x doubled k times. */
  function Doubled(x: int, k: nat): int {
    if k == 0 then x else 2 * Doubled(x, k - 1)
  }

  function Pow2(k: nat): nat {
    if k == 0 then 1 else 2 * Pow2(k - 1)
  }

  lemma {:induction false} DoubledIsProduct(x: int, k: nat)
    ensures Doubled(x, k) == x * Pow2(k)
  {
    if k > 0 {
      DoubledIsProduct(x, k - 1);
      assert x * (2 * Pow2(k - 1)) == 2 * (x * Pow2(k - 1));
    }
  }

  function Min(a: int, b: int): int {
    if a <= b then a else b
  }

  datatype Policy = Policy(maxAttempts: int, initialBackoff: Duration, maxBackoff: Duration)

  // --- What Next computes -------------------------------------------------------------

  /** Value of `base` when the doubling loop of Next ends, from its n-th round on. */
  function LoopResult(cap: Duration, attempt: int, n: int, base: Duration): Duration
    decreases attempt - n
  {
    if n >= attempt then base
    else if Wrap64(base * 2) >= cap then cap
    else LoopResult(cap, attempt, n + 1, Wrap64(base * 2))
  }

  /** Rounds that loop makes. */
  function LoopRounds(cap: Duration, attempt: int, n: int, base: Duration): nat
    decreases attempt - n
  {
    if n >= attempt then 0
    else if Wrap64(base * 2) >= cap then 1
    else 1 + LoopRounds(cap, attempt, n + 1, Wrap64(base * 2))
  }

  /** The backoff before jitter for the given attempt. */
  function Base(p: Policy, attempt: int): Duration {
    var looped := LoopResult(p.maxBackoff, attempt, 1, p.initialBackoff);
    if looped > p.maxBackoff then p.maxBackoff else looped
  }

  /** Conversion of a real product to an integer, toward zero. */
  function Truncate(x: real): int {
    if x >= 0.0 then x.Floor else -((-x).Floor)
  }

  function Jitter(draw: real, base: Duration): Duration {
    Truncate(draw * base as real)
  }

  class Iterator {
    const policy: Policy
    var attempt: nat

    constructor (policy: Policy)
      ensures this.policy == policy && attempt == 0
    {
      this.policy := policy;
      attempt := 0;
    }

    predicate Done()
      reads this
    {
      attempt >= policy.maxAttempts
    }

    /** One step: `draw` is what the policy's random source returns for this call. */
    method Next(draw: real) returns (backoff: Duration, ghost rounds: nat)
      modifies this
      ensures attempt == old(attempt) + 1
      ensures backoff == Jitter(draw, Base(policy, attempt))
      ensures rounds == LoopRounds(policy.maxBackoff, attempt, 1, policy.initialBackoff)
    {
      attempt := attempt + 1;
      var base := policy.initialBackoff;
      rounds := 0;
      var n := 1;
      while n < attempt
        invariant 1 <= n <= attempt
        invariant LoopResult(policy.maxBackoff, attempt, n, base)
               == LoopResult(policy.maxBackoff, attempt, 1, policy.initialBackoff)
        invariant rounds + LoopRounds(policy.maxBackoff, attempt, n, base)
               == LoopRounds(policy.maxBackoff, attempt, 1, policy.initialBackoff)
      {
        base := Wrap64(base * 2);
        rounds := rounds + 1;
        if base >= policy.maxBackoff {
          base := policy.maxBackoff;
          break;
        }
        n := n + 1;
      }
      if base > policy.maxBackoff {
        base := policy.maxBackoff;
      }
      backoff := Jitter(draw, base);
    }
  }

  // --- The closed form and exactly when it holds -----------------------------------------

  /** Exponential growth from the initial backoff, capped: what the policy documents. */
  function CappedDoubling(p: Policy, attempt: int): Duration
    requires attempt >= 1
  {
    Min(p.initialBackoff * Pow2(attempt - 1), p.maxBackoff)
  }

  /** The j-th doubling is at or above the cap and still an int64. */
  predicate CapReachedAt(p: Policy, j: nat) {
    j >= 1 && p.maxBackoff <= p.initialBackoff * Pow2(j) < TWO_63
  }

  /** No doubling has to leave int64 on the way to the cap. */
  ghost predicate Fits(p: Policy) {
    p.initialBackoff == 0 || exists j :: CapReachedAt(p, j)
  }

  predicate InRange(p: Policy) {
    0 <= p.initialBackoff < TWO_63 && 0 <= p.maxBackoff < TWO_63
  }

  lemma {:induction false} DoubledGrows(x: nat, a: nat, b: nat)
    requires a <= b
    ensures x <= Doubled(x, a) <= Doubled(x, b)
    ensures a < b ==> 2 * Doubled(x, a) <= Doubled(x, b)
    decreases b
  {
    if a < b {
      DoubledGrows(x, a, b - 1);
    } else if b > 0 {
      DoubledGrows(x, b - 1, b - 1);
    }
  }

  lemma {:induction false} LoopFollowsDoubling(p: Policy, attempt: nat, n: nat, j: nat)
    requires InRange(p) && j >= 1 && p.maxBackoff <= Doubled(p.initialBackoff, j) < TWO_63
    requires 1 <= n <= attempt && n <= j
    requires n == 1 || Doubled(p.initialBackoff, n - 1) < p.maxBackoff
    ensures Min(LoopResult(p.maxBackoff, attempt, n, Doubled(p.initialBackoff, n - 1)), p.maxBackoff)
         == Min(Doubled(p.initialBackoff, attempt - 1), p.maxBackoff)
    ensures LoopRounds(p.maxBackoff, attempt, n, Doubled(p.initialBackoff, n - 1)) <= Min(attempt, j + 1) - n
    decreases attempt - n
  {
    if n < attempt {
      DoubledGrows(p.initialBackoff, n, j);
      DoubledGrows(p.initialBackoff, n, attempt - 1);
      if Doubled(p.initialBackoff, n) < p.maxBackoff {
        LoopFollowsDoubling(p, attempt, n + 1, j);
      }
    }
  }

  lemma {:induction false} LoopStaysAtZero(cap: Duration, attempt: int, n: int)
    requires 0 <= cap
    ensures LoopResult(cap, attempt, n, 0) == 0
    decreases attempt - n
  {
    if n < attempt && cap > 0 {
      LoopStaysAtZero(cap, attempt, n + 1);
    }
  }

  lemma {:induction false} DoubledZero(k: nat)
    ensures Doubled(0, k) == 0
  {
    if k > 0 {
      DoubledZero(k - 1);
    }
  }

  lemma BaseIsCappedDoubling(p: Policy, attempt: nat)
    requires InRange(p) && Fits(p) && attempt >= 1
    ensures Base(p, attempt) == CappedDoubling(p, attempt)
    ensures Base(p, attempt) == Min(Doubled(p.initialBackoff, attempt - 1), p.maxBackoff)
  {
    DoubledIsProduct(p.initialBackoff, attempt - 1);
    if p.initialBackoff == 0 {
      LoopStaysAtZero(p.maxBackoff, attempt, 1);
      DoubledZero(attempt - 1);
    } else {
      var j :| CapReachedAt(p, j);
      DoubledIsProduct(p.initialBackoff, j);
      LoopFollowsDoubling(p, attempt, 1, j);
    }
  }

  /** The last doubling that still fits an int64. */
  lemma {:induction false} LastFittingDoubling(x: nat, from: nat) returns (last: nat)
    requires 1 <= x && Doubled(x, from) < TWO_63
    ensures from <= last && Doubled(x, last) < TWO_63 <= Doubled(x, last + 1)
    decreases TWO_63 - Doubled(x, from)
  {
    DoubledGrows(x, from, from);
    if Doubled(x, from + 1) < TWO_63 {
      last := LastFittingDoubling(x, from + 1);
    } else {
      last := from;
    }
  }

  lemma {:induction false} LoopTurnsNegative(p: Policy, n: nat, last: nat)
    requires InRange(p) && 1 <= n <= last + 1
    requires forall k | 1 <= k <= last :: Doubled(p.initialBackoff, k) < p.maxBackoff
    requires Doubled(p.initialBackoff, last) < TWO_63 <= Doubled(p.initialBackoff, last + 1)
    ensures LoopResult(p.maxBackoff, last + 2, n, Doubled(p.initialBackoff, n - 1)) < 0
    decreases last + 1 - n
  {
    if n <= last {
      DoubledGrows(p.initialBackoff, n, last);
      LoopTurnsNegative(p, n + 1, last);
    } else {
      var doubled := Doubled(p.initialBackoff, n);
      assert TWO_63 <= doubled < TWO_64;
      assert Wrap64(doubled) == doubled - TWO_64;
    }
  }

  /** An attempt at which the computed backoff is negative, whenever the cap does not fit. */
  lemma OverflowingAttempt(p: Policy) returns (attempt: nat)
    requires InRange(p) && !Fits(p)
    ensures attempt >= 2 && Base(p, attempt) < 0 <= CappedDoubling(p, attempt)
    ensures Doubled(p.initialBackoff, attempt - 2) < TWO_63 <= Doubled(p.initialBackoff, attempt - 1)
  {
    var last := LastFittingDoubling(p.initialBackoff, 0);
    forall k | 1 <= k <= last ensures Doubled(p.initialBackoff, k) < p.maxBackoff {
      DoubledGrows(p.initialBackoff, k, last);
      DoubledIsProduct(p.initialBackoff, k);
      assert !CapReachedAt(p, k);
    }
    LoopTurnsNegative(p, 1, last);
    attempt := last + 2;
    DoubledGrows(p.initialBackoff, attempt - 1, attempt - 1);
    DoubledIsProduct(p.initialBackoff, attempt - 1);
  }

  /** Capped doubling is what every attempt gets if and only if the cap is reachable inside int64. */
  lemma BackoffExactIff(p: Policy)
    requires InRange(p)
    ensures (forall attempt: nat | attempt >= 1 :: Base(p, attempt) == CappedDoubling(p, attempt)) <==> Fits(p)
  {
    if Fits(p) {
      forall attempt: nat | attempt >= 1 ensures Base(p, attempt) == CappedDoubling(p, attempt) {
        BaseIsCappedDoubling(p, attempt);
      }
    } else {
      var attempt := OverflowingAttempt(p);
    }
  }

  const LONGEST_CAP := Policy(64, 1, TWO_63 - 1)

  lemma {:induction false} PowersMultiply(a: nat, b: nat)
    ensures Pow2(a + b) == Pow2(a) * Pow2(b)
  {
    if b > 0 {
      PowersMultiply(a, b - 1);
      assert Pow2(a + b) == 2 * Pow2(a + b - 1);
      assert Pow2(a) * (2 * Pow2(b - 1)) == 2 * (Pow2(a) * Pow2(b - 1));
    }
  }

  /** An initial backoff of 2^62 ns is not: the first doubling leaves int64. */
  lemma LargeInitialOverflows(p: Policy)
    requires p.initialBackoff == TWO_62 && InRange(p)
    ensures !Fits(p) && Base(p, 2) < 0
  {
    assert Doubled(TWO_62, 1) == TWO_63;
    forall j: nat | j >= 1 ensures !CapReachedAt(p, j) {
      DoubledGrows(TWO_62, 1, j);
      DoubledIsProduct(TWO_62, j);
    }
  }

  lemma SixtyThreeDoublings()
    ensures Doubled(1, 63) == TWO_63
  {
    assert Pow2(7) == 128;
    PowersMultiply(7, 7);
    PowersMultiply(14, 14);
    PowersMultiply(28, 28);
    PowersMultiply(56, 7);
    DoubledIsProduct(1, 63);
  }

  /** With one nanosecond and the longest cap there is, the base is negative within a budget of 64 attempts. */
  lemma LongestCapOverflows() returns (attempt: nat)
    ensures InRange(LONGEST_CAP) && !Fits(LONGEST_CAP)
    ensures 2 <= attempt <= LONGEST_CAP.maxAttempts && Base(LONGEST_CAP, attempt) < 0
  {
    forall j: nat ensures !CapReachedAt(LONGEST_CAP, j) {
      DoubledIsProduct(1, j);
    }
    attempt := OverflowingAttempt(LONGEST_CAP);
    SixtyThreeDoublings();
    if attempt - 2 >= 63 {
      DoubledGrows(1, 63, attempt - 2);
    }
  }

  // --- Within a budget -----------------------------------------------------------------------

  /** The cap is reachable inside int64, or the last attempt's doubling still is. */
  ghost predicate FitsBudget(p: Policy, n: nat)
    requires n >= 1
  {
    Fits(p) || p.initialBackoff * Pow2(n - 1) < TWO_63
  }

  lemma {:induction false} LoopBeforeOverflow(p: Policy, attempt: nat, n: nat)
    requires InRange(p) && 1 <= n <= attempt && Doubled(p.initialBackoff, attempt - 1) < TWO_63
    requires n == 1 || Doubled(p.initialBackoff, n - 1) < p.maxBackoff
    ensures Min(LoopResult(p.maxBackoff, attempt, n, Doubled(p.initialBackoff, n - 1)), p.maxBackoff)
         == Min(Doubled(p.initialBackoff, attempt - 1), p.maxBackoff)
    decreases attempt - n
  {
    if n < attempt {
      DoubledGrows(p.initialBackoff, n, attempt - 1);
      if Doubled(p.initialBackoff, n) < p.maxBackoff {
        LoopBeforeOverflow(p, attempt, n + 1);
      }
    }
  }

  lemma SmallerBudgetFits(p: Policy, n: nat, m: nat)
    requires InRange(p) && 1 <= n <= m && FitsBudget(p, m)
    ensures FitsBudget(p, n)
  {
    DoubledIsProduct(p.initialBackoff, n - 1);
    DoubledIsProduct(p.initialBackoff, m - 1);
    DoubledGrows(p.initialBackoff, n - 1, m - 1);
  }

  lemma BudgetIsExact(p: Policy, n: nat, attempt: nat)
    requires InRange(p) && 1 <= attempt <= n && FitsBudget(p, n)
    ensures Base(p, attempt) == CappedDoubling(p, attempt)
    ensures Base(p, attempt) == Min(Doubled(p.initialBackoff, attempt - 1), p.maxBackoff)
  {
    if Fits(p) {
      BaseIsCappedDoubling(p, attempt);
    } else {
      DoubledIsProduct(p.initialBackoff, n - 1);
      DoubledIsProduct(p.initialBackoff, attempt - 1);
      DoubledGrows(p.initialBackoff, attempt - 1, n - 1);
      LoopBeforeOverflow(p, attempt, 1);
    }
  }

  lemma OverflowWithin(p: Policy, n: nat) returns (attempt: nat)
    requires InRange(p) && n >= 1 && !FitsBudget(p, n)
    ensures 2 <= attempt <= n && Base(p, attempt) < 0 <= CappedDoubling(p, attempt)
  {
    attempt := OverflowingAttempt(p);
    DoubledIsProduct(p.initialBackoff, n - 1);
    if attempt > n {
      DoubledGrows(p.initialBackoff, n - 1, attempt - 2);
    }
  }

  /** With a budget of n attempts, each of them gets the capped doubling if and only if the budget fits. */
  lemma BudgetExactIff(p: Policy, n: nat)
    requires InRange(p) && n >= 1
    ensures (forall a: nat | 1 <= a <= n :: Base(p, a) == CappedDoubling(p, a)) <==> FitsBudget(p, n)
  {
    if FitsBudget(p, n) {
      forall a: nat | 1 <= a <= n ensures Base(p, a) == CappedDoubling(p, a) {
        BudgetIsExact(p, n, a);
      }
    } else {
      var attempt := OverflowWithin(p, n);
    }
  }

  /** And the same is the condition for backoffs that never shrink over the budget. */
  lemma BudgetNeverShrinksIff(p: Policy, n: nat)
    requires InRange(p) && n >= 1
    ensures (forall a: nat, b: nat | 1 <= a <= b <= n :: Base(p, a) <= Base(p, b)) <==> FitsBudget(p, n)
  {
    if FitsBudget(p, n) {
      forall a: nat, b: nat | 1 <= a <= b <= n ensures Base(p, a) <= Base(p, b) {
        BudgetIsExact(p, n, a);
        BudgetIsExact(p, n, b);
        DoubledGrows(p.initialBackoff, a - 1, b - 1);
      }
    } else {
      var attempt := OverflowWithin(p, n);
      assert 0 <= Base(p, 1) && Base(p, attempt) < 0;
    }
  }

  /** Five attempts from 500 ms with the longest cap: no doubling reaches it, and none of the five needs one. */
  lemma NoCapFitsBudget()
    ensures var p := Policy(5, 500_000_000, TWO_63 - 1); InRange(p) && !Fits(p) && FitsBudget(p, p.maxAttempts)
  {
    var p := Policy(5, 500_000_000, TWO_63 - 1);
    forall j: nat | j >= 1 ensures !CapReachedAt(p, j) {
      assert Pow2(j) == 2 * Pow2(j - 1);
      assert 500_000_000 * Pow2(j) == 2 * (500_000_000 * Pow2(j - 1));
    }
    assert Pow2(4) == 16;
  }

  // --- Bounds that hold even when doublings wrap around -----------------------------------------------

  lemma {:induction false} LoopBelowDoubling(cap: Duration, attempt: nat, n: nat, x: nat, base: Duration)
    requires 1 <= n <= attempt && -TWO_63 <= base < TWO_63
    requires base <= Doubled(x, n - 1) && (base < 0 ==> Doubled(x, n - 1) >= TWO_63)
    ensures LoopResult(cap, attempt, n, base) <= Doubled(x, attempt - 1)
    decreases attempt - n
  {
    DoubledGrows(x, n - 1, attempt - 1);
    if n < attempt {
      DoubledGrows(x, n, attempt - 1);
      DoubledGrows(x, n - 1, n);
      if Wrap64(base * 2) < cap {
        LoopBelowDoubling(cap, attempt, n + 1, x, Wrap64(base * 2));
      }
    }
  }

  /** Wrapped around or not, the base is never above the cap, and never above the doubling it stands for. */
  lemma BaseBounded(p: Policy, attempt: nat)
    requires InRange(p) && attempt >= 1
    ensures Base(p, attempt) <= p.maxBackoff
    ensures Base(p, attempt) <= Doubled(p.initialBackoff, attempt - 1)
  {
    LoopBelowDoubling(p.maxBackoff, attempt, 1, p.initialBackoff, p.initialBackoff);
  }

  // --- Rounds of the doubling loop ---------------------------------------------------------------------

  /** The value of `base` after k doublings, each wrapped around. */
  function Wrapped(x: Duration, k: nat): Duration {
    if k == 0 then x else Wrap64(Wrapped(x, k - 1) * 2)
  }

  lemma WrapTwice(y: int)
    ensures Wrap64(Wrap64(y) * 2) == Wrap64(y * 2)
  {
    var q := (y + TWO_63) / TWO_64;
    assert Wrap64(y) == y - TWO_64 * q;
    assert Wrap64(y) * 2 + TWO_63 == (y * 2 + TWO_63) - TWO_64 * (2 * q);
  }

  /** Wrapping at each doubling is wrapping once at the end. */
  lemma {:induction false} WrappedOnce(x: int, k: nat)
    requires k >= 1
    ensures Wrapped(x, k) == Wrap64(x * Pow2(k))
  {
    if k > 1 {
      WrappedOnce(x, k - 1);
      WrapTwice(x * Pow2(k - 1));
      assert x * Pow2(k) == x * Pow2(k - 1) * 2;
    }
  }

  lemma WholeTurns(x: int, turns: int)
    requires turns == x * TWO_64
    ensures Wrap64(turns) == 0
  {
    assert (turns + TWO_63) - TWO_64 * x == TWO_63;
  }

  lemma WrappedAway64(x: int)
    ensures Wrapped(x, 64) == 0
  {
    WrappedOnce(x, 64);
    PowersOf64();
    WholeTurns(x, x * Pow2(64));
  }

  lemma {:induction false} WrappedAway(x: int, k: nat)
    requires k >= 64
    ensures Wrapped(x, k) == 0
  {
    if k == 64 {
      WrappedAway64(x);
    } else {
      WrappedAway(x, k - 1);
      assert Wrap64(0) == 0;
    }
  }

  lemma PowersOf64()
    ensures Pow2(64) == TWO_64
  {
    SixtyThreeDoublings();
    DoubledIsProduct(1, 63);
  }

  lemma {:induction false} RoundsUntilCap(p: Policy, attempt: nat, n: nat, j: nat)
    requires 1 <= n <= attempt && n <= j
    requires Wrapped(p.initialBackoff, j) >= p.maxBackoff
    ensures LoopRounds(p.maxBackoff, attempt, n, Wrapped(p.initialBackoff, n - 1)) <= Min(attempt, j + 1) - n
    decreases attempt - n
  {
    if n < attempt && Wrapped(p.initialBackoff, n) < p.maxBackoff {
      RoundsUntilCap(p, attempt, n + 1, j);
    }
  }

  lemma {:induction false} RoundsWithoutCap(p: Policy, attempt: nat, n: nat)
    requires 1 <= n <= attempt
    requires forall k: nat | k >= 1 :: Wrapped(p.initialBackoff, k) < p.maxBackoff
    ensures LoopRounds(p.maxBackoff, attempt, n, Wrapped(p.initialBackoff, n - 1)) == attempt - n
    decreases attempt - n
  {
    if n < attempt {
      assert Wrapped(p.initialBackoff, n) < p.maxBackoff;
      RoundsWithoutCap(p, attempt, n + 1);
    }
  }

  /** The j-th doubling, as int64 leaves it, is at or above the cap. */
  predicate StopsAt(p: Policy, j: nat) {
    j >= 1 && Wrap64(p.initialBackoff * Pow2(j)) >= p.maxBackoff
  }

  /** The doubling loop stops there at the latest: its rounds are bounded whatever the attempt number. */
  lemma DoublingsBounded(p: Policy, attempt: nat, j: nat)
    requires StopsAt(p, j) && attempt >= 1
    ensures LoopRounds(p.maxBackoff, attempt, 1, p.initialBackoff) <= Min(attempt - 1, j)
  {
    WrappedOnce(p.initialBackoff, j);
    RoundsUntilCap(p, attempt, 1, j);
  }

  ghost predicate RoundsWithin(p: Policy, bound: nat) {
    forall attempt: nat | attempt >= 1 :: LoopRounds(p.maxBackoff, attempt, 1, p.initialBackoff) <= bound
  }

  /** For any settings, a bound for all attempts exists if and only if one of the first 64 doublings stops the loop. */
  lemma RoundsBoundedIff(p: Policy)
    ensures (exists bound: nat :: RoundsWithin(p, bound)) <==> exists j: nat | j <= 64 :: StopsAt(p, j)
  {
    if j: nat :| j <= 64 && StopsAt(p, j) {
      forall attempt: nat | attempt >= 1 ensures LoopRounds(p.maxBackoff, attempt, 1, p.initialBackoff) <= j {
        DoublingsBounded(p, attempt, j);
      }
      assert RoundsWithin(p, j);
    } else {
      forall bound: nat ensures !RoundsWithin(p, bound) {
        RoundsGrow(p, bound + 2);
      }
    }
  }

  /** Otherwise they grow with the attempt number. */
  lemma RoundsGrow(p: Policy, attempt: nat)
    requires attempt >= 1 && forall j: nat | j <= 64 :: !StopsAt(p, j)
    ensures LoopRounds(p.maxBackoff, attempt, 1, p.initialBackoff) == attempt - 1
  {
    forall k: nat | k >= 1 ensures Wrapped(p.initialBackoff, k) < p.maxBackoff {
      if k <= 64 {
        assert !StopsAt(p, k);
        WrappedOnce(p.initialBackoff, k);
      } else {
        assert !StopsAt(p, 64);
        WrappedOnce(p.initialBackoff, 64);
        WrappedAway(p.initialBackoff, 64);
        WrappedAway(p.initialBackoff, k);
      }
    }
    RoundsWithoutCap(p, attempt, 1);
  }

  /** As they do for 2^62 ns and the longest cap. */
  lemma LargeInitialRoundsGrow(max: int, attempt: nat)
    requires attempt >= 1
    ensures LoopRounds(TWO_63 - 1, attempt, 1, TWO_62) == attempt - 1
  {
    var p := Policy(max, TWO_62, TWO_63 - 1);
    forall j: nat | j <= 64 ensures !StopsAt(p, j) {
      if j >= 1 {
        assert TWO_62 * Pow2(j) == 2 * (TWO_62 * Pow2(j - 1));
        assert Wrap64(2 * (TWO_62 * Pow2(j - 1))) % 2 == 0;
      }
    }
    RoundsGrow(p, attempt);
  }

  lemma {:induction false} ReachCap(p: Policy, j: nat) returns (k: nat)
    requires 1 <= p.initialBackoff && p.maxBackoff <= TWO_62 && j >= 1
    requires Doubled(p.initialBackoff, j) < TWO_63
    ensures CapReachedAt(p, k)
    decreases TWO_63 - Doubled(p.initialBackoff, j)
  {
    DoubledGrows(p.initialBackoff, j, j);
    if p.maxBackoff <= Doubled(p.initialBackoff, j) {
      DoubledIsProduct(p.initialBackoff, j);
      k := j;
    } else {
      k := ReachCap(p, j + 1);
    }
  }

  /** An initial backoff below 2^62 ns (some 146 years) and a cap up to it are always safe. */
  lemma ModerateSettingsFit(p: Policy)
    requires 0 <= p.initialBackoff < TWO_62 && 0 <= p.maxBackoff <= TWO_62
    ensures InRange(p) && Fits(p)
  {
    if p.initialBackoff > 0 {
      assert Doubled(p.initialBackoff, 1) == 2 * p.initialBackoff;
      var k := ReachCap(p, 1);
    }
  }

  /** The backoff never shrinks and stays at the cap once there. */
  lemma BaseNeverShrinks(p: Policy, a: nat, b: nat)
    requires InRange(p) && Fits(p) && 1 <= a <= b
    ensures 0 <= Base(p, a) <= Base(p, b) <= p.maxBackoff
    ensures Base(p, a) == p.maxBackoff ==> Base(p, b) == p.maxBackoff
  {
    BaseIsCappedDoubling(p, a);
    BaseIsCappedDoubling(p, b);
    DoubledGrows(p.initialBackoff, a - 1, b - 1);
  }

  /** A cap that is reachable inside int64 stops it. */
  lemma ReachableCapStops(p: Policy, j: nat)
    requires InRange(p) && CapReachedAt(p, j)
    ensures StopsAt(p, j)
  {
  }

  lemma ProductBounds(u: real, y: real)
    requires 0.0 <= u <= 1.0 && 0.0 <= y
    ensures 0.0 <= u * y <= y
  {
  }

  /** Full jitter stays between nothing and the base, and reaches it. */
  lemma JitterWithinBase(draw: real, base: Duration)
    requires 0.0 <= draw <= 1.0 && 0 <= base
    ensures 0 <= Jitter(draw, base) <= base
    ensures draw == 1.0 ==> Jitter(draw, base) == base
  {
    ProductBounds(draw, base as real);
  }

  lemma TruncatedAway(x: real)
    requires 0.0 <= x
    ensures Truncate(x) == 0 <==> x < 1.0
  {
  }

  /** The first value is no special case: it is zero only when jitter or a zero setting makes it so. */
  lemma FirstBackoffZeroIff(p: Policy, draw: real, base: int)
    requires InRange(p) && 0.0 <= draw <= 1.0 && base == Min(p.initialBackoff, p.maxBackoff)
    ensures Base(p, 1) == base
    ensures Jitter(draw, Base(p, 1)) == 0 <==> draw * base as real < 1.0
  {
    assert Base(p, 1) == base;
    ProductBounds(draw, base as real);
    TruncatedAway(draw * base as real);
  }
}
