/** Failure-compatible wrappers shared by the modules of this project. */
module Wrappers {

  /** A value that may be absent (JavaScript `null` / `undefined`). */
  datatype Option<+T> = None | Some(value: T) {
    function GetOr(default: T): T {
      match this
      case Some(v) => v
      case None => default
    }
  }

  /** The outcome of an operation that may throw. */
  datatype Result<+T> = Ok(value: T) | Err(message: string)

  /** The outcome of an operation that may throw and otherwise returns nothing of interest. */
  datatype Outcome = Pass | Fail(message: string)
}
