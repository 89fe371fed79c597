// The retry delay of internal/worker/worker.go, in Go's wrapping int64.
module Backoff {

  const MAX_INT64 := 0x7fff_ffff_ffff_ffff

  // time.Duration
  newtype Duration = x: int | -MAX_INT64 - 1 <= x <= MAX_INT64

  // Go's int64 multiplication keeps the low 64 bits.
  function Wrap(x: int): Duration {
    var low := x % (2 * MAX_INT64 + 2);
    if low <= MAX_INT64 then low as Duration else (low - 2 * MAX_INT64 - 2) as Duration
  }

  // d, doubled n times.
  function Scaled(d: int, n: nat): int {
    if n == 0 then d else 2 * Scaled(d, n - 1)
  }

  lemma {:induction false} ScaledFirst(d: int, n: nat)
    requires n > 0
    ensures Scaled(d, n) == Scaled(2 * d, n - 1)
  {
    if n > 1 {
      ScaledFirst(d, n - 1);
    }
  }

  lemma {:induction false} ScaledMonotone(d: int, m: nat, n: nat)
    requires d > 0 && m <= n
    ensures 0 < d <= Scaled(d, m) <= Scaled(d, n)
  {
    if m < n {
      ScaledMonotone(d, m, n - 1);
    } else if n > 0 {
      ScaledMonotone(d, 0, n - 1);
    }
  }

  // Doublings before the delay after this attempt.
  function Earlier(attempt: nat): nat {
    if attempt == 0 then 0 else attempt - 1
  }

  // What the documentation promises: the base, doubled for each earlier
  // attempt, capped.
  function Delay(base: int, max: int, attempt: nat): int {
    var d := Scaled(base, Earlier(attempt));
    if d < max then d else max
  }

  // Doubling from d reaches max without leaving int64.
  predicate NoOverflow(d: int, max: int)
    requires d > 0
    decreases max - d
  {
    d >= max || (2 * d <= MAX_INT64 && NoOverflow(2 * d, max))
  }

  // The loop's `d` after n more iterations.
  function Doubled(d: Duration, max: Duration, n: nat): Duration
    decreases n
  {
    if n == 0 || d >= max then d else Doubled(Wrap(2 * d as int), max, n - 1)
  }

  // min(d, max) after the loop for this attempt.
  function Capped(base: Duration, max: Duration, attempt: nat): Duration {
    var d := Doubled(base, max, Earlier(attempt));
    if d < max then d else max
  }

  lemma {:induction false} DoubledIsScaled(d: Duration, max: Duration, n: nat)
    requires d > 0 && NoOverflow(d as int, max as int)
    ensures Scaled(d as int, n) < max as int ==> Doubled(d, max, n) as int == Scaled(d as int, n)
    ensures Scaled(d as int, n) >= max as int ==> Doubled(d, max, n) >= max
    decreases n
  {
    ScaledMonotone(d as int, 0, n);
    if n > 0 && d < max {
      ScaledFirst(d as int, n);
      DoubledIsScaled(Wrap(2 * d as int), max, n - 1);
    }
  }

  lemma DoubledMore(d: Duration, max: Duration, n: nat)
    requires d < max
    ensures Doubled(d, max, n + 1) == Doubled(Wrap(2 * d as int), max, n)
  {
  }

  lemma DoubledOnce(d: Duration, max: Duration)
    requires d < max
    ensures Doubled(d, max, 1) == Wrap(2 * d as int) && Scaled(d as int, 1) == 2 * d as int
  {
    DoubledMore(d, max, 0);
  }

  // Where the loop overflows: at some attempt its result is negative.
  lemma {:induction false} OverflowTurnsNegative(d: Duration, max: Duration) returns (n: nat)
    requires d > 0 && !NoOverflow(d as int, max as int)
    ensures Doubled(d, max, n) < 0
    ensures Scaled(d as int, n) >= max as int
    decreases max as int - d as int
  {
    hide Doubled, Scaled;
    if 2 * d as int > MAX_INT64 {
      n := 1;
      DoubledOnce(d, max);
    } else {
      var m := OverflowTurnsNegative((2 * d as int) as Duration, max);
      n := m + 1;
      DoubledMore(d, max, m);
      ScaledFirst(d as int, n);
    }
  }

  // The promise is kept at every attempt exactly when doubling cannot overflow.
  lemma CappedIsDelay(base: Duration, max: Duration)
    requires 0 < base <= max
    ensures NoOverflow(base as int, max as int) <==>
            forall attempt: nat | attempt >= 1 :: Capped(base, max, attempt) as int == Delay(base as int, max as int, attempt)
  {
    if NoOverflow(base as int, max as int) {
      forall attempt: nat | attempt >= 1
        ensures Capped(base, max, attempt) as int == Delay(base as int, max as int, attempt)
      {
        DoubledIsScaled(base, max, attempt - 1);
      }
    } else {
      var n := OverflowTurnsNegative(base, max);
      assert Capped(base, max, n + 1) < 0;
      assert Delay(base as int, max as int, n + 1) == max as int;
    }
  }

  // A cap of at most 2^62 is always safe.
  lemma {:induction false} SmallCapIsSafe(d: int, max: int)
    requires 0 < d && max <= 0x4000_0000_0000_0000
    ensures NoOverflow(d, max)
    decreases max - d
  {
    if d < max {
      SmallCapIsSafe(2 * d, max);
    }
  }

  // The configuration check allows caps for which the delay goes negative.
  lemma LargeCapOverflows()
    ensures 0 < 0x4000_0000_0000_0000 <= MAX_INT64
    ensures !NoOverflow(0x4000_0000_0000_0000, MAX_INT64)
    ensures Capped(0x4000_0000_0000_0000, MAX_INT64 as Duration, 2) < 0
  {
    var d: Duration := 0x4000_0000_0000_0000;
    assert Doubled(d, MAX_INT64 as Duration, 1) == Doubled(Wrap(2 * d as int), MAX_INT64 as Duration, 0);
  }

  // The loop's `d` after it has doubled the base i times.
  ghost predicate Reached(base: Duration, max: Duration, d: Duration, i: nat) {
    && d > 0
    && NoOverflow(d as int, max as int)
    && d as int == Scaled(base as int, i)
    && (i > 0 ==> Scaled(base as int, i - 1) < max as int)
  }

  lemma ReachedNext(base: Duration, max: Duration, d: Duration, i: nat)
    requires Reached(base, max, d, i) && d < max
    ensures Reached(base, max, Wrap(2 * d as int), i + 1)
  {
    assert Wrap(2 * d as int) as int == 2 * d as int;
  }

  // retryDelay. `doublings` counts the loop's iterations.
  method RetryDelay(base: Duration, max: Duration, attempt: nat) returns (d: Duration, ghost doublings: nat)
    requires 0 < base <= max
    ensures d == Capped(base, max, attempt)
    ensures NoOverflow(base as int, max as int) ==> d as int == Delay(base as int, max as int, attempt) && base <= d <= max
    ensures doublings <= Earlier(attempt)
    ensures NoOverflow(base as int, max as int) && doublings > 0 ==> Scaled(base as int, doublings - 1) < max as int
  {
    d := base;
    doublings := 0;
    ghost var fits := NoOverflow(base as int, max as int);
    var i := 1;
    while i < attempt && d < max
      invariant 1 <= i && doublings == i - 1 <= Earlier(attempt)
      invariant Doubled(d, max, Earlier(attempt) - doublings) == Doubled(base, max, Earlier(attempt))
      invariant fits ==> Reached(base, max, d, doublings)
    {
      if fits {
        ReachedNext(base, max, d, doublings);
      }
      d := Wrap(2 * d as int);
      doublings := doublings + 1;
      i := i + 1;
    }
    d := if d < max then d else max;
    if fits {
      DelayInRange(base, max, attempt);
    }
  }

  lemma DelayInRange(base: Duration, max: Duration, attempt: nat)
    requires 0 < base <= max && NoOverflow(base as int, max as int)
    ensures Capped(base, max, attempt) as int == Delay(base as int, max as int, attempt)
    ensures base <= Capped(base, max, attempt) <= max
  {
    DoubledIsScaled(base, max, Earlier(attempt));
    DelayBounds(base as int, max as int, attempt);
  }

  lemma DelayBounds(base: int, max: int, attempt: nat)
    requires 0 < base <= max
    ensures base <= Delay(base, max, attempt) <= max
  {
    ScaledMonotone(base, 0, Earlier(attempt));
  }

  lemma DelayMonotone(base: int, max: int, a: nat, b: nat)
    requires 0 < base <= max && a <= b
    ensures Delay(base, max, a) <= Delay(base, max, b)
  {
    ScaledMonotone(base, Earlier(a), Earlier(b));
  }

  // The waits before attempt n starts: one after each earlier attempt.
  function TotalDelay(base: int, max: int, n: nat): int {
    if n <= 1 then 0 else TotalDelay(base, max, n - 1) + Delay(base, max, n - 1)
  }

  // The same in int64, as the workers wait.
  function TotalWait(base: Duration, max: Duration, n: nat): int {
    if n <= 1 then 0 else TotalWait(base, max, n - 1) + Capped(base, max, n - 1) as int
  }

  lemma {:induction false} TotalWaitIsDelay(base: Duration, max: Duration, n: nat)
    requires 0 < base <= max && NoOverflow(base as int, max as int)
    ensures TotalWait(base, max, n) == TotalDelay(base as int, max as int, n)
  {
    hide Capped, Delay, NoOverflow;
    if n > 1 {
      TotalWaitIsDelay(base, max, n - 1);
      DelayInRange(base, max, n - 1);
    }
  }
}
