/** Failure-compatible wrappers: an optional value, and a value or the exception raised instead. */
module Wrappers {

  /** An optional value; `None` also stands for a keyword argument that was not supplied. */
  datatype Option<+T> = None | Some(value: T) {

    /** The value, or `default` when there is none (Python's `dict.get(key, default)`). */
    function GetOr(default: T): T {
      match this
      case Some(v) => v
      case None => default
    }
  }

  /** The outcome of an operation that either returns a value or raises. */
  datatype Result<+R, +E> = Success(value: R) | Failure(error: E) {

    predicate IsFailure() {
      Failure?
    }

    function PropagateFailure<U>(): Result<U, E>
      requires Failure?
    {
      Failure(error)
    }

    function Extract(): R
      requires Success?
    {
      value
    }
  }
}
