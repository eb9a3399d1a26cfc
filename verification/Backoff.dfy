/** `transient_backoff`: doubling with a bounded multiplication, proved against the unbounded formula. */
module Backoff {
  import opened Basics

  /** The longest duration the platform can represent, in nanoseconds. */
  const MAX_DURATION: int := 0xffff_ffff_ffff_ffff * 1_000_000_000 + 999_999_999

  type Duration = n: int | 0 <= n <= MAX_DURATION witness 0

  function Pow2(n: nat): pos {
    if n == 0 then 1 else 2 * Pow2(n - 1)
  }

  /** The documented delay before retry number `attempt`, over unbounded integers. */
  function Delay(base: nat, max: nat, attempt: nat): nat {
    Min(base * Pow2(if attempt == 0 then 0 else attempt - 1), max)
  }

  /** `Duration::checked_mul(2)`. */
  function CheckedDouble(d: Duration): Option<Duration> {
    if 2 * d <= MAX_DURATION then Some(2 * d) else None
  }

  /** The delay before capping. */
  function Doubled(base: nat, times: nat): nat {
    if times == 0 then base else 2 * Doubled(base, times - 1)
  }

  lemma {:induction false} DoubledIsPower(base: nat, times: nat)
    ensures Doubled(base, times) == base * Pow2(times)
  {
    if times > 0 {
      DoubledIsPower(base, times - 1);
      assert base * (2 * Pow2(times - 1)) == 2 * (base * Pow2(times - 1));
    }
  }

  lemma {:induction false} DoubledGrows(base: nat, a: nat, b: nat)
    requires a <= b
    ensures Doubled(base, a) <= Doubled(base, b)
    decreases b - a
  {
    if a < b {
      DoubledGrows(base, a, b - 1);
    }
  }

  method TransientBackoff(base: Duration, max: Duration, attempt: nat) returns (delay: Duration)
    ensures delay == Delay(base, max, attempt)
  {
    ghost var last := if attempt == 0 then 0 else attempt - 1;
    DoubledIsPower(base, last);
    delay := base;
    var i := 1;
    while i < attempt
      invariant 1 <= i <= last + 1
      invariant delay == Doubled(base, i - 1)
    {
      var doubled := CheckedDouble(delay);
      delay := if doubled.Some? then doubled.value else max;
      if delay >= max {
        DoubledGrows(base, i, last);
        return max;
      }
      i := i + 1;
    }
    delay := Min(delay, max);
  }

  /** Later attempts never wait less, and no wait exceeds the maximum. */
  lemma DelayGrows(base: nat, max: nat, a: nat, b: nat)
    requires a <= b
    ensures Delay(base, max, a) <= Delay(base, max, b) <= max
  {
    var m, n := if a == 0 then 0 else a - 1, if b == 0 then 0 else b - 1;
    DoubledIsPower(base, m);
    DoubledIsPower(base, n);
    DoubledGrows(base, m, n);
  }
}
