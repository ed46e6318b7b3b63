/** Optional values (JavaScript `undefined`) and results of calls that may throw. */
module Wrappers {

  /** A value that may be absent: `None` stands for `undefined`/`null`. */
  datatype Option<+T> = None | Some(value: T) {
    function GetOr(default: T): T {
      match this
      case Some(v) => v
      case None => default
    }
  }

  /** The outcome of an awaited call: a resolved value or the rejection it threw. */
  datatype Result<+R, +E> = Success(value: R) | Failure(error: E)
}
