/** Option and Result: the model's stand-ins for Java's nullable references,
    `Optional`, and methods that either return a value or throw. */
module Wrappers {

  /** A nullable reference or an `Optional`: `None` is Java's `null` / `Optional.empty()`. */
  datatype Option<+T> = None | Some(value: T) {

    /** `Optional.orElse(default)`. */
    function GetOr(default: T): T {
      match this
      case Some(v) => v
      case None => default
    }
  }

  /** The outcome of a Java call that either returns a value or throws. */
  datatype Result<+R, +E> = Success(value: R) | Failure(error: E) {

    predicate IsFailure() {
      Failure?
    }

    function PropagateFailure<U>(): Result<U, E>
      requires Failure?
    {
      Failure(error)
    }

    function Extract(): R
      requires Success?
    {
      value
    }
  }
}
