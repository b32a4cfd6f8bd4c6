/** Instants and durations as Go's time package has them. */
module Clock {

  /** An instant, in nanoseconds since the Unix epoch. */
  type Time = int

  /** A length of time, in nanoseconds. */
  type Duration = int

  const SECOND: Duration := 1_000_000_000
  const MINUTE: Duration := 60 * SECOND
  const MAX_DURATION: Duration := 0x7FFF_FFFF_FFFF_FFFF
  const MIN_DURATION: Duration := -0x8000_0000_0000_0000

  /** The zero value of time.Time, 1 January of year 1. */
  const ZERO_TIME: Time := -62_135_596_800 * SECOND

  /** The difference of two instants, which saturates at the range of a 64-bit count of nanoseconds. */
  function Sub(t: Time, u: Time): Duration {
    if t - u > MAX_DURATION then MAX_DURATION
    else if t - u < MIN_DURATION then MIN_DURATION
    else t - u
  }

  /** The whole second that an RFC 3339 time stamp keeps of an instant. */
  function Seconds(t: Time): (s: int)
    ensures s * 1_000_000_000 <= t < (s + 1) * 1_000_000_000
  {
    t / SECOND
  }

  /** The instant an RFC 3339 time stamp denotes. */
  function Instant(seconds: int): Time {
    seconds * SECOND
  }

  /** A wait that the saturated difference reports as over really is over. */
  lemma SubReached(t: Time, u: Time, d: Duration)
    requires u <= t && Sub(t, u) >= d
    ensures t - u >= d
  {
  }
}
