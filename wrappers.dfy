/** Optional values and results: Python's `None` and raised exceptions. */
module Wrappers {

  /** An optional value: Python's `Optional[T]`, where `None` means absent. */
  datatype Option<+T> = None | Some(value: T) {
    /** The value, or `default` when absent (Python's `x if x is not None else default`). */
    function GetOr(default: T): T {
      match this
      case Some(v) => v
      case None => default
    }
  }

  /**
   * The outcome of a call that either returns a value or raises.
   * `Err` carries the message `str(e)` of the exception the source would raise.
   */
  datatype Result<+T> = Ok(value: T) | Err(error: string)

  /** The outcome of a call that returns nothing or raises. */
  datatype Outcome = Pass | Fail(error: string)
}
