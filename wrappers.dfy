/** Failure-carrying values shared by the model: an optional value and the
    result of an operation that can throw. */
module Wrappers {

  datatype Option<+T> = None | Some(value: T) {
    /** The `??` operator of the source: the value if present, otherwise `default`. */
    function GetOr(default: T): T {
      match this
      case Some(v) => v
      case None => default
    }
  }

  /** A value, or the error an operation threw instead of producing one. */
  datatype Result<+R, +E> = Success(value: R) | Failure(error: E)
}
