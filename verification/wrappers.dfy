/** Failure-compatible wrappers used throughout the model: `Option` stands for
    PHP's nullable values, `Result` for a call that either returns or throws. */
module Wrappers {

  /** A PHP `?T`: `None` is `null`. */
  datatype Option<+T> = None | Some(value: T) {

    /** The value, or `default` when this is `None` (PHP's `??`). */
    function GetOr(default: T): T {
      match this
      case Some(v) => v
      case None => default
    }
  }

  /** The outcome of a PHP call: a returned value or a thrown error. */
  datatype Result<+R, +E> = Success(value: R) | Failure(error: E) {

    predicate IsFailure() {
      Failure?
    }

    function PropagateFailure<U>(): Result<U, E>
      requires Failure?
    {
      Failure(error)
    }

    function Extract(): R
      requires Success?
    {
      value
    }
  }
}
