/** Types shared by every module: optional values, results, and times in nanoseconds. */
module Prelude {
  datatype Option<+T> = None | Some(value: T)

  datatype Result<+T, +E> = Ok(value: T) | Err(error: E)

  /** A point in time or a duration, in nanoseconds. */
  type Time = int

  const SECOND: Time := 1_000_000_000
  const MINUTE: Time := 60 * SECOND
  const HOUR: Time := 60 * MINUTE

  /** What survives writing a time with whole-second precision and reading it back. */
  function WholeSeconds(t: Time): (w: Time)
    ensures w <= t < w + SECOND
  {
    t - t % SECOND
  }
}
