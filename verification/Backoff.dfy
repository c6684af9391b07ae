/** The retry delay of a failed task: doubling, capped, with hash-derived jitter. */
module Backoff {

  const SECOND: int := 1_000_000_000
  const RETRY_BASE: int := SECOND
  const RETRY_MAX: int := 30 * SECOND
  const INT64_MAX: int := 0x7FFF_FFFF_FFFF_FFFF

  /** The un-jittered delay of attempt `n`: one second doubled `n - 1` times, at most thirty. */
  function Base(n: int): (b: int)
    ensures RETRY_BASE <= b <= RETRY_MAX
    decreases n
  {
    if n <= 1 then RETRY_BASE
    else if 2 * Base(n - 1) >= RETRY_MAX then RETRY_MAX
    else 2 * Base(n - 1)
  }

  /** Less than half of the base, so that doubling the base always outweighs it. */
  function Jitter(base: int, source: nat): (j: nat)
    requires base >= 2
    ensures 2 * j < base
  {
    source % (base / 2)
  }

  /** Delay of attempt `n`; `source` is whatever number the hash of the task ID and the attempt gives. */
  function Delay(n: int, source: nat): (d: int)
    ensures RETRY_BASE <= d <= RETRY_MAX
  {
    var d := Base(n) + Jitter(Base(n), source);
    if d > RETRY_MAX then RETRY_MAX else d
  }

  function Pow2(n: nat): nat {
    if n == 0 then 1 else 2 * Pow2(n - 1)
  }

  /** One second times a power of two, at most thirty. */
  lemma {:induction false} BaseIsCappedPower(n: nat)
    requires n >= 1
    ensures Base(n) == if SECOND * Pow2(n - 1) < 30 * SECOND then SECOND * Pow2(n - 1) else 30 * SECOND
  {
    if n > 1 {
      BaseIsCappedPower(n - 1);
      assert Pow2(n - 1) == 2 * Pow2(n - 2);
    }
  }

  /** The jitter adds less than half, and never leads beyond the cap. */
  lemma DelayNearBase(n: int, source: nat)
    ensures Base(n) <= Delay(n, source) <= 30 * SECOND && 2 * Delay(n, source) <= 3 * Base(n)
  {
  }

  /** The jitter is what the hash gives: a source below half the base is added as it is. */
  lemma JitterIsTheSource(n: int, source: nat)
    requires source < Base(n) / 2
    ensures Delay(n, source) == if Base(n) + source > 30 * SECOND then 30 * SECOND else Base(n) + source
  {
    SmallRemainder(source, Base(n) / 2);
  }

  lemma SmallRemainder(x: nat, d: int)
    requires x < d
    ensures x % d == x
  {
  }

  /** Once the cap is reached every later attempt stays there, so the loop may stop early. */
  lemma {:induction false} BaseStaysAtCap(m: int, n: int)
    requires m <= n && Base(m) == RETRY_MAX
    ensures Base(n) == RETRY_MAX
    decreases n - m
  {
    if m < n {
      BaseStaysAtCap(m, n - 1);
    }
  }

  /** The loop of `retryDelay`, in 64-bit nanoseconds: no intermediate value overflows. */
  method RetryDelay(attempt: int, source: nat) returns (delay: int)
    requires source <= INT64_MAX
    ensures delay == Delay(attempt, source)
    ensures RETRY_BASE <= delay <= RETRY_MAX
  {
    var n := if attempt < 1 then 1 else attempt;
    var base := RETRY_BASE;
    var i := 1;
    while i < n
      invariant 1 <= i <= n
      invariant base == Base(i)
      decreases n - i
    {
      assert base * 2 <= INT64_MAX;
      base := base * 2;
      i := i + 1;
      if base >= RETRY_MAX {
        base := RETRY_MAX;
        BaseStaysAtCap(i, n);
        break;
      }
    }
    assert base == Base(n);
    if base > RETRY_MAX {
      base := RETRY_MAX;
    }
    var jitterMax := base / 2;
    if jitterMax <= 0 {
      jitterMax := 1_000_000;
    }
    var jitter := source % jitterMax;
    assert jitter == Jitter(base, source);
    assert base + jitter <= INT64_MAX;
    delay := base + jitter;
    if delay > RETRY_MAX {
      delay := RETRY_MAX;
    }
  }

  /**
   * Whatever the jitter of the two attempts, a later attempt never waits less than an earlier one,
   * and every wait lies between one second and thirty.
   */
  lemma {:induction false} DelaysNeverOverlap(m: int, n: int, source: nat, source': nat)
    requires m < n
    requires 1 <= m
    ensures RETRY_BASE <= Delay(m, source) <= Delay(n, source') <= RETRY_MAX
    decreases n - m
  {
    var b := Base(m);
    if n == m + 1 {
      assert Base(n) == (if 2 * b >= RETRY_MAX then RETRY_MAX else 2 * b);
    } else {
      DelaysNeverOverlap(m, n - 1, source, 0);
      DelaysNeverOverlap(n - 1, n, 0, source');
    }
  }
}
