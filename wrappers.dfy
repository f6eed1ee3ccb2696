/** Option and Result values shared by the broker and the video store. */
module Wrappers {

  /** A value that may be absent (`undefined` in the source). */
  datatype Option<+T> = None | Some(value: T) {
    function GetOr(default: T): T {
      match this
      case Some(v) => v
      case None => default
    }
  }

  /** The outcome of an operation that either resolves with a value or
      rejects with an error message. */
  datatype Result<+T> = Success(value: T) | Failure(error: string)
}
