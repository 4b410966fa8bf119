/** Outcomes shared by the whole model: an optional value, the ways the
    script can fail, and a result that is either a value or one failure. */
module Failures {

  datatype Option<T> = None | Some(value: T)

  /** Every failure the modelled code can raise. In the script each of these
      is an uncaught exception that ends the run, except `Exit`, which is the
      deliberate `sys.exit` after a diagnostic line. */
  datatype Error =
    | KeyError(key: string)             // a dictionary lookup of a missing key
    | TypeError(key: string)            // the key holds a value of the wrong kind
    | TimestampOutOfRange(instant: int) // `fromtimestamp` leaves the years 1..9999
    | DateOverflow(instant: int)        // `start_datetime - timedelta(...)` drops below year 1
    | UnpackError                       // `a, b = ....split()` did not give two parts
    | NoRoute                           // the directions service returned no route
    | Exit(status: int, message: string)

  datatype Result<T> = Ok(value: T) | Err(error: Error)
}
