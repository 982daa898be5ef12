/** Option and Result, the failure-compatible wrappers the model uses for `undefined` and for exceptions. */
module Wrappers {

  /** `None` stands for JavaScript's `undefined` (a missing key or property) or `null`. */
  datatype Option<+T> = None | Some(value: T)

  /** A value, or the error a JavaScript function throws or a promise rejects with. */
  datatype Result<+T, +E> = Success(value: T) | Failure(error: E) {
    predicate IsFailure() {
      Failure?
    }

    function PropagateFailure<U>(): Result<U, E>
      requires Failure?
    {
      Failure(error)
    }

    function Extract(): T
      requires Success?
    {
      value
    }
  }

  /** The result of an operation that only returns or throws. */
  datatype Outcome<+E> = Pass | Fail(error: E)
}
