/** Failure-carrying results used across the model in place of Java exceptions. */
module Wrappers {

  datatype Option<+T> = None | Some(value: T) {
    function GetOr(default: T): T {
      match this
      case Some(v) => v
      case None => default
    }
  }

  /** A computation that yields a value or fails with an error. */
  datatype Result<+T, +E> = Ok(value: T) | Err(error: E)

  /** A computation that only succeeds or fails (a Java `void` method that may throw). */
  datatype Outcome<+E> = Pass | Fail(error: E)
}
