/** Failure-compatible wrappers shared by every module of the model.
    - Option<T> stands for a value that may be undefined (pandas NaN).
    - Result<R, E> stands for a computation that may raise an exception. */
module Wrappers {

  /** A value that may be absent; `None` plays the role of NaN. */
  datatype Option<+T> = None | Some(value: T) {

    /** Returns the value, or `default` when absent. */
    function GetOr(default: T): T {
      match this
      case Some(v) => v
      case None => default
    }
  }

  /** The outcome of a computation that may raise. */
  datatype Result<+R, +E> = Success(value: R) | Failure(error: E) {

    predicate IsFailure() {
      Failure?
    }

    function PropagateFailure<U>(): Result<U, E>
      requires Failure?
    {
      Failure(error)
    }

    function Extract(): R
      requires Success?
    {
      value
    }
  }
}
