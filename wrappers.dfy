/** Absent-or-present values and success-or-failure outcomes, used for Java `null`,
    TypeScript `undefined`/`null` and for exceptions. */
module Wrappers {

  datatype Option<+T> = None | Some(value: T) {
    function GetOr(default: T): T {
      match this
      case Some(v) => v
      case None => default
    }
  }

  /** A service call that returned a value or threw. */
  datatype Result<+T, +E> = Ok(value: T) | Err(error: E)
}
