/** Go's `time.Time` and `time.Duration` as whole nanoseconds. */
module Clock {

  type Time = int

  const MILLISECOND: int := 1_000_000
  const SECOND: int := 1_000_000_000
  const MINUTE: int := 60 * SECOND
  const DAY: int := 24 * 60 * MINUTE

  /** `t.Unix()`: whole seconds, rounded down. */
  function Unix(t: Time): int {
    t / SECOND
  }

  /** `a.Before(b)`. */
  predicate Before(a: Time, b: Time) {
    a < b
  }

  /** Adding a whole number of seconds commutes with rounding down to seconds. */
  lemma UnixShift(t: Time, seconds: int)
    ensures Unix(t + seconds * SECOND) == Unix(t) + seconds
  {
  }

  /** Rounding down loses less than a second. */
  lemma UnixBounds(t: Time)
    ensures Unix(t) * SECOND <= t < Unix(t) * SECOND + SECOND
  {
  }

  lemma UnixMonotone(a: Time, b: Time)
    requires a <= b
    ensures Unix(a) <= Unix(b)
  {
  }
}
