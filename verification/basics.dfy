/** Small shared vocabulary: optional values, results that carry an error text, units of time, and Min. */
module Basics {

  datatype Option<+T> = None | Some(value: T)

  /** A computation that either yields a value or fails with the text of the exception it raised. */
  datatype Result<+T> = Ok(value: T) | Err(error: string)

  /** An effect that either completes or fails with the text of the exception it raised. */
  datatype Outcome = Pass | Fail(error: string)

  /** Units of time the durations and the reported totals are converted with. */
  const MinutesPerDay := 1440
  const MinutesPerHour := 60
  const SecondsPerMinute := 60

  function Min(a: int, b: int): int
  {
    if a <= b then a else b
  }
}
