/** Option, Result and Outcome: the model's stand-ins for Swift optionals and `throws`. */
module Wrappers {

  datatype Option<+T> = None | Some(value: T) {
    /** Swift's `x ?? default`. */
    function GetOr(default: T): T {
      match this
      case Some(v) => v
      case None => default
    }
  }

  /** The value of a throwing call: what it returned, or what it threw. */
  datatype Result<+T, +E> = Success(value: T) | Failure(error: E)

  /** The value of a throwing call that returns nothing. */
  datatype Outcome<+E> = Pass | Fail(error: E)
}
