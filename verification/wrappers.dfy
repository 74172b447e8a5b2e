/** Failure-compatible wrappers shared by the rest of the model. */
module Wrappers {

  /** A value that may be absent: `None` stands for a Python exception or a missing entry. */
  datatype Option<+T> = None | Some(value: T) {

    /** The wrapped value, or `default` when there is none. */
    function GetOr(default: T): T {
      match this
      case Some(v) => v
      case None => default
    }
  }

  /** The outcome of an operation that either succeeds or reports why it did not. */
  datatype Result<+T, +E> = Success(value: T) | Failure(error: E)
}
