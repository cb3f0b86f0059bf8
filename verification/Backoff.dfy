/** Retry delays: the policy used when a worker reports a failure and the SQL expression used by the reaper. */
module Backoff {
  import opened Basics

  function Pow2(n: nat): (p: nat)
    ensures p >= 1
  {
    if n == 0 then 1 else 2 * Pow2(n - 1)
  }

  function Power(x: real, n: nat): real {
    if n == 0 then 1.0 else x * Power(x, n - 1)
  }

  /** The delay after `n` increases, before it is capped. */
  function Raw(base: real, factor: real, n: nat): real {
    base * Power(factor, n)
  }

  /** Durations in seconds. `jitter` is a fraction in [0, 1]. */
  datatype BackoffPolicy = BackoffPolicy(base: real, factor: real, max: real, jitter: real) {
    function DelayForAttempt(attempt: nat): real {
      var exp := Min(Max(attempt, 1) - 1, 32);
      var raw := Raw(base, factor, exp);
      var capped := if raw < max then raw else max;
      if capped > 0.0 then capped else 0.0
    }

    /** `randUnit` comes from the caller's generator. */
    function DelayWithJitter(attempt: nat, randUnit: real): real {
      Jittered(DelayForAttempt(attempt), max, jitter, randUnit)
    }
  }

  function Clamp(x: real, low: real, high: real): real {
    if x < low then low else if x > high then high else x
  }

  /** The fraction `jitter` of a delay. */
  function Spread(plain: real, jitter: real): real {
    plain * jitter
  }

  /** `randUnit` in [0, 1] mapped to [-spread, spread]. */
  function Offset(spread: real, randUnit: real): real {
    (Clamp(randUnit, 0.0, 1.0) * 2.0 - 1.0) * spread
  }

  function Jittered(plain: real, ceiling: real, jitter: real, randUnit: real): real {
    if jitter <= 0.0 then plain else
    var secs := plain + Offset(Spread(plain, jitter), randUnit);
    var floored := if secs < 0.0 then 0.0 else secs;
    if floored > ceiling then ceiling else floored
  }

  function Exponential(baseSecs: int, maxSecs: int): BackoffPolicy {
    BackoffPolicy(Max(baseSecs, 1) as real, 2.0, Max(maxSecs, Max(baseSecs, 1)) as real, 0.0)
  }

  /** Rounded up to whole seconds. */
  function Ceiling(x: real): int {
    if x.Floor as real == x then x.Floor else x.Floor + 1
  }

  /** The delay written when a worker reports a failed attempt. */
  function ReportedDelay(baseSecs: int, maxSecs: int, attempts: nat): int {
    var base := Max(baseSecs, 1);
    Min(Max(maxSecs, base), base * Pow2(Min(Max(attempts, 1) - 1, 32)))
  }

  lemma {:induction false} PowerOfTwo(n: nat)
    ensures Power(2.0, n) == Pow2(n) as real
  {
    if n > 0 {
      PowerOfTwo(n - 1);
    }
  }

  lemma {:induction false} ProductAsReal(a: int, b: nat)
    ensures (a * b) as real == a as real * b as real
    decreases b
  {
    if b > 0 {
      ProductAsReal(a, b - 1);
      assert a * b == a * (b - 1) + a;
      assert b as real == (b - 1) as real + 1.0;
      assert a as real * b as real == a as real * (b - 1) as real + a as real;
    }
  }

  lemma RawIsWhole(base: int, n: nat)
    requires base >= 1
    ensures base * Pow2(n) >= 1 && Raw(base as real, 2.0, n) == (base * Pow2(n)) as real
  {
    PowerOfTwo(n);
    ProductAsReal(base, Pow2(n));
    Scaled(base, 1, Pow2(n));
  }

  lemma DelayIsWhole(p: BackoffPolicy, attempts: nat, ceiling: int, whole: int)
    requires p.max == ceiling as real && ceiling >= 1 && whole >= 1
    requires Raw(p.base, p.factor, Min(Max(attempts, 1) - 1, 32)) == whole as real
    ensures p.DelayForAttempt(attempts) == Min(ceiling, whole) as real
  {
  }

  /** The policy's delay rounded up, as the store writes it, is a whole number to begin with. */
  lemma ReportedIsCeiling(baseSecs: int, maxSecs: int, attempts: nat)
    ensures Ceiling(Exponential(Max(baseSecs, 1), Max(maxSecs, 1)).DelayForAttempt(attempts))
         == ReportedDelay(baseSecs, maxSecs, attempts)
  {
    var base := Max(baseSecs, 1);
    var n := Min(Max(attempts, 1) - 1, 32);
    RawIsWhole(base, n);
    DelayIsWhole(Exponential(base, Max(maxSecs, 1)), attempts, Max(maxSecs, base), base * Pow2(n));
  }

  /** The delay computed by the reaper's UPDATE statement. */
  function SweptDelay(baseSecs: int, maxSecs: int, attempts: nat): int {
    Min(maxSecs, baseSecs * Pow2(Max(attempts - 1, 0)))
  }

  lemma {:induction false} Pow2Monotone(m: nat, n: nat)
    requires m <= n
    ensures Pow2(m) <= Pow2(n)
    decreases n
  {
    if m < n {
      Pow2Monotone(m, n - 1);
    }
  }

  lemma Pow2At32()
    ensures Pow2(32) == 0x1_0000_0000
  {
    assert Pow2(8) == 256;
    assert Pow2(16) == 65536;
    assert Pow2(24) == 0x100_0000;
  }

  lemma Scaled(base: int, p: int, q: int)
    requires base >= 1 && p <= q
    ensures base * p <= base * q
    ensures p >= 0 ==> p <= base * p
  {
  }

  /** The two implementations agree for 32-bit parameters exactly when the ceiling is not below the base. */
  lemma DelaysAgree(base: int, max: int, attempts: nat)
    requires 1 <= base < INT32_LIMIT && 1 <= max < INT32_LIMIT
    ensures ReportedDelay(base, max, attempts) == SweptDelay(base, max, attempts) <==> base <= max
    ensures Ceiling(Exponential(base, max).DelayForAttempt(attempts)) == SweptDelay(base, max, attempts) <==> base <= max
  {
    ReportedIsCeiling(base, max, attempts);
    var e := Max(attempts - 1, 0);
    Scaled(base, 1, Pow2(e));
    Scaled(base, 1, Pow2(Min(e, 32)));
    if e > 32 {
      Pow2At32();
      Pow2Monotone(32, e);
      Scaled(base, Pow2(32), Pow2(e));
      assert base * Pow2(32) > max;
    }
  }

  /** Both delays lie between the base and the ceiling. */
  lemma DelayBounds(base: int, max: int, attempts: nat)
    requires 1 <= base <= max
    ensures base <= SweptDelay(base, max, attempts) <= max
  {
    Scaled(base, 1, Pow2(Max(attempts - 1, 0)));
  }

  /** Total delay after the first `k` failed attempts. */
  function TotalDelay(base: int, max: int, k: nat): int {
    if k == 0 then 0 else TotalDelay(base, max, k - 1) + SweptDelay(base, max, k)
  }

  lemma Doubling(base: int, p: int)
    ensures base * (2 * p) == base * p + base * p
    ensures base * (2 * p - 1) == base * (p - 1) + base * p
  {
  }

  /** While the ceiling is not reached the total is geometric. */
  lemma {:induction false} TotalDelayClosedForm(base: int, max: int, k: nat)
    requires 1 <= base
    requires k >= 1 ==> base * Pow2(k - 1) <= max
    ensures TotalDelay(base, max, k) == base * (Pow2(k) - 1)
  {
    if k > 0 {
      if k > 1 {
        Doubling(base, Pow2(k - 2));
        Scaled(base, 0, Pow2(k - 2));
      }
      TotalDelayClosedForm(base, max, k - 1);
      assert SweptDelay(base, max, k) == base * Pow2(k - 1);
      Doubling(base, Pow2(k - 1));
    }
  }

  lemma SpreadBounds(plain: real, jitter: real)
    requires plain >= 0.0 && 0.0 <= jitter <= 1.0
    ensures 0.0 <= Spread(plain, jitter) <= plain
  {
    assert plain * (1.0 - jitter) >= 0.0;
  }

  lemma OffsetBounds(spread: real, randUnit: real)
    requires spread >= 0.0
    ensures -spread <= Offset(spread, randUnit) <= spread
  {
    var unit := Clamp(randUnit, 0.0, 1.0);
    assert unit * spread >= 0.0;
    assert (1.0 - unit) * spread >= 0.0;
    assert Offset(spread, randUnit) == 2.0 * (unit * spread) - spread;
  }

  lemma ClampWithin(x: real, centre: real, radius: real, ceiling: real)
    requires centre - radius <= x <= centre + radius && 0.0 <= radius <= centre <= ceiling
    ensures centre - radius <= Clamp(x, 0.0, ceiling) <= centre + radius
  {
  }

  lemma JitteredBounds(plain: real, ceiling: real, jitter: real, randUnit: real)
    requires 0.0 <= plain <= ceiling && 0.0 <= jitter <= 1.0
    ensures var d := Jittered(plain, ceiling, jitter, randUnit);
            && plain - Spread(plain, jitter) <= d <= plain + Spread(plain, jitter)
            && 0.0 <= d <= ceiling
  {
    var spread := Spread(plain, jitter);
    SpreadBounds(plain, jitter);
    OffsetBounds(spread, randUnit);
    ClampWithin(plain + Offset(spread, randUnit), plain, spread, ceiling);
  }

  lemma DelayCapped(p: BackoffPolicy, attempt: nat)
    requires p.max >= 0.0
    ensures 0.0 <= p.DelayForAttempt(attempt) <= p.max
  {
  }

  lemma RawGrows(base: real, factor: real, n: nat)
    ensures Raw(base, factor, n + 1) == factor * Raw(base, factor, n)
  {
    var power := Power(factor, n);
    assert base * (factor * power) == factor * (base * power);
  }

  lemma {:induction false} RawNonNegative(base: real, factor: real, n: nat)
    requires base >= 0.0 && factor >= 0.0
    ensures Raw(base, factor, n) >= 0.0
  {
    if n > 0 {
      RawNonNegative(base, factor, n - 1);
      RawGrows(base, factor, n - 1);
    }
  }

  lemma Multiplied(factor: real, x: real, y: real)
    requires factor >= 1.0 && 0.0 <= x <= y
    ensures x <= factor * x <= factor * y
  {
    assert (factor - 1.0) * x >= 0.0;
    assert factor * (y - x) >= 0.0;
  }

  /** The first delay is the base, each further one the factor times the one before, none is above the ceiling, and from
      the 33rd attempt on they are the same. */
  lemma DelaysGrow(p: BackoffPolicy, attempt: nat)
    requires p.base >= 0.0 && p.factor >= 1.0 && p.max >= 0.0
    ensures attempt <= 1 ==> p.DelayForAttempt(attempt) == if p.base < p.max then p.base else p.max
    ensures 1 <= attempt <= 32 ==>
              var next := p.factor * p.DelayForAttempt(attempt);
              p.DelayForAttempt(attempt + 1) == if next < p.max then next else p.max
    ensures attempt >= 33 ==> p.DelayForAttempt(attempt) == p.DelayForAttempt(33)
  {
    if 1 <= attempt <= 32 {
      var raw := Raw(p.base, p.factor, attempt - 1);
      RawNonNegative(p.base, p.factor, attempt - 1);
      RawGrows(p.base, p.factor, attempt - 1);
      if raw < p.max {
        Multiplied(p.factor, raw, p.max);
      } else {
        Multiplied(p.factor, p.max, raw);
      }
    }
  }

  /** Jitter moves the delay of a policy by at most the configured fraction of it, whatever the caller's generator
      yields, never below zero or past the ceiling, and not at all if there is none. */
  lemma JitterBounds(p: BackoffPolicy, attempt: nat, randUnit: real)
    requires p.max >= 0.0 && 0.0 <= p.jitter <= 1.0
    ensures var plain, d := p.DelayForAttempt(attempt), p.DelayWithJitter(attempt, randUnit);
            && plain - plain * p.jitter <= d <= plain + plain * p.jitter
            && 0.0 <= d <= p.max
            && (p.jitter == 0.0 ==> d == plain)
  {
    DelayCapped(p, attempt);
    JitteredBounds(p.DelayForAttempt(attempt), p.max, p.jitter, randUnit);
  }

  lemma OffsetGrows(spread: real, low: real, high: real)
    requires spread >= 0.0 && low <= high
    ensures Offset(spread, low) <= Offset(spread, high)
  {
    var a, b := Clamp(low, 0.0, 1.0), Clamp(high, 0.0, 1.0);
    assert (b - a) * spread >= 0.0;
    assert Offset(spread, high) - Offset(spread, low) == 2.0 * ((b - a) * spread);
  }

  /** A generator's middle leaves the delay alone; its ends move it by the whole fraction, down and, up to the ceiling,
      up; and in between a higher number never gives a shorter delay. */
  lemma JitterExact(p: BackoffPolicy, attempt: nat, low: real, high: real)
    requires p.max >= 0.0 && 0.0 <= p.jitter <= 1.0 && low <= high
    ensures var plain := p.DelayForAttempt(attempt);
            && p.DelayWithJitter(attempt, 0.0) == plain - plain * p.jitter
            && p.DelayWithJitter(attempt, 0.5) == plain
            && p.DelayWithJitter(attempt, 1.0)
            == if plain + plain * p.jitter < p.max then plain + plain * p.jitter else p.max
    ensures p.DelayWithJitter(attempt, low) <= p.DelayWithJitter(attempt, high)
  {
    var plain := p.DelayForAttempt(attempt);
    DelayCapped(p, attempt);
    SpreadBounds(plain, p.jitter);
    var spread := Spread(plain, p.jitter);
    assert Offset(spread, 0.0) == -spread && Offset(spread, 0.5) == 0.0 && Offset(spread, 1.0) == spread;
    OffsetGrows(spread, low, high);
  }
}
