/** Option and Result: JavaScript's optional (`undefined`) values and caught exceptions as data. */
module Wrappers {

  /** A value that may be absent (`undefined` or `null` in the source). */
  datatype Option<+T> = None | Some(value: T) {

    /** The value, or `default` when absent (JavaScript `??`). */
    function GetOr(default: T): T {
      match this
      case Some(v) => v
      case None => default
    }
  }

  /** The outcome of an operation that may throw: a value or the error's message. */
  datatype Result<+T> = Success(value: T) | Failure(message: string)
}
