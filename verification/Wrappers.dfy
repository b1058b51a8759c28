/** The failure-carrying types shared by all modules. */
module Wrappers {
  /** A value that may be absent: Python's None, a missing Redis key, a missing hash field. */
  datatype Option<+T> = None | Some(value: T) {
    function GetOr(default: T): T {
      match this
      case Some(v) => v
      case None => default
    }
  }

  /** A call that either returns or raises. */
  datatype Result<+R, +E> = Success(value: R) | Failure(error: E)
}
