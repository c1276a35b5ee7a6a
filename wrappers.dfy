/** Optional values and results with an error, shared by every module. */
module Wrappers {

  /** A value that may be absent (JavaScript `null` or `undefined`). */
  datatype Option<+T> = None | Some(value: T)
  {
    function GetOr(default: T): T
    {
      match this
      case Some(v) => v
      case None => default
    }
  }

  /** The result of an operation that may throw an exception. */
  datatype Result<+T, +E> = Success(value: T) | Failure(error: E)
}
