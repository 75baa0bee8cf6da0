/**
 * Wall-clock time as the backend reads it: an instant is a count of
 * microseconds since the Unix epoch (UTC), the resolution of Python's
 * `datetime`.  Every read of the clock is a parameter of the operation that
 * makes it.
 */
module Clock {
  /** Microseconds since 1970-01-01T00:00:00Z. */
  type Instant = int

  const Hour: int := 3_600_000_000

  /** The index of the UTC hour containing `t` (the `"%Y-%m-%d %H:00"` bucket of `t`). */
  function HourOf(t: Instant): int
  {
    t / Hour
  }

  /** The first instant of hour `h` (`t.replace(minute=0, second=0, microsecond=0)`). */
  function HourStart(h: int): Instant
  {
    h * Hour
  }
}
