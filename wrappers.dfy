/** Option and Result, the two shapes every fallible step of the pipeline returns. */
module Wrappers {

  datatype Option<+T> = None | Some(value: T) {

    /** The wrapped value, or `default` when there is none. */
    function GetOr(default: T): T {
      match this
      case Some(v) => v
      case None => default
    }
  }

  /** A thrown JavaScript error becomes `Failure(message)`. */
  datatype Result<+T> = Success(value: T) | Failure(error: string)
}
