/** Failure-carrying result types shared by the driver model. */
module Wrappers {

  /** A value that may be absent: Ruby's `nil` where the source returns one. */
  datatype Option<+T> = None | Some(value: T) {
    function GetOr(default: T): T {
      match this
      case Some(v) => v
      case None => default
    }
  }

  /** A value, or the error the source raises instead of returning it. */
  datatype Result<+T, +E> = Ok(value: T) | Err(error: E)

  /** An operation that either completes or raises. */
  datatype Outcome<+E> = Pass | Fail(error: E)
}
