/** Option and Result values, used wherever the source has a missing value or a caught exception. */
module Wrappers {

  datatype Option<+T> = None | Some(value: T) {
    /** The value, or `default` when there is none (Python's `dict.get(key, default)`). */
    function GetOr(default: T): T {
      match this
      case Some(v) => v
      case None => default
    }
  }

  /** `Failure` carries the text of the exception that the source catches. */
  datatype Result<+R, +E> = Success(value: R) | Failure(error: E)
}
