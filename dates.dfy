/** Timestamps and the integer day arithmetic the components perform on them. */
module Dates {

  /** A point in time in milliseconds since the Unix epoch, as `Date.getTime()` gives it. */
  type Time = int

  /** `1000 * 60 * 60 * 24`: one day in milliseconds. */
  const MsPerDay: int := 1000 * 60 * 60 * 24

  /** `Math.ceil(x / k)` for a positive divisor: the least integer `q` with `x <= q * k`. */
  function CeilDiv(x: int, k: int): int
    requires k > 0
  {
    -((-x) / k)
  }

  lemma CeilDivBounds(x: int, k: int)
    requires k > 0
    ensures (CeilDiv(x, k) - 1) * k < x <= CeilDiv(x, k) * k
  {
  }

  lemma MulMonotone(a: int, b: int, k: int)
    requires a <= b && k > 0
    ensures a * k <= b * k
  {
    assert b * k - a * k == (b - a) * k;
  }

  /** The ceiling is at most `n` exactly when `x` is at most `n` whole units. */
  lemma {:induction false} CeilDivAtMost(x: int, k: int, n: int)
    requires k > 0
    ensures CeilDiv(x, k) <= n <==> x <= n * k
  {
    var q := CeilDiv(x, k);
    CeilDivBounds(x, k);
    if q <= n {
      MulMonotone(q, n, k);
    } else {
      MulMonotone(n, q - 1, k);
    }
  }

  /** The ceiling is positive exactly when `x` is; so `ceil(x / k) <= 0` does not depend on `k`. */
  lemma CeilDivNonPositive(x: int, k: int)
    requires k > 0
    ensures CeilDiv(x, k) <= 0 <==> x <= 0
  {
    CeilDivAtMost(x, k, 0);
  }

  /** `Math.abs`. */
  function Abs(x: int): nat {
    if x < 0 then -x else x
  }

  /** Whole days, rounded up, from `now` until `t` (negative once `t` has passed). */
  function DaysUntil(t: Time, now: Time): int {
    CeilDiv(t - now, MsPerDay)
  }

  /** `new Date(t).toISOString().split('T')[0]` read back as a time: the start of t's UTC day. */
  function DayStart(t: Time): (d: Time)
    ensures d <= t < d + MsPerDay
    ensures d % MsPerDay == 0
  {
    t - t % MsPerDay
  }
}
