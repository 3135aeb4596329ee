/** Option and Result values used across the model. */
module Wrappers {

  /** A value that may be absent (a JavaScript `undefined`/`null`, or a key that is not there). */
  datatype Option<+T> = None | Some(value: T) {
    function GetOr(default: T): T {
      match this
      case Some(v) => v
      case None => default
    }
  }

  /** The outcome of an operation that can fail with a message. */
  datatype Result<+T> = Success(value: T) | Failure(error: string)
}
