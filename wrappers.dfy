/** Option and Result values shared by every module of the model. */
module Wrappers {

  /** A value that may be absent: JavaScript's `undefined` or `null`. */
  datatype Option<+T> = None | Some(value: T) {
    /** The value, or `default` when it is absent (JavaScript's `??`). */
    function GetOr(default: T): T {
      match this
      case Some(v) => v
      case None => default
    }
  }

  /** The outcome of an operation that the source may end by throwing an `Error`. */
  datatype Result<+R, +E> = Success(value: R) | Failure(error: E)
}
