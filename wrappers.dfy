/** Option and Result, the failure-compatible wrappers the rest of the model uses. */
module Wrappers {

  /** Ruby's `nil` versus a present value. */
  datatype Option<+T> = None | Some(value: T)

  /** A value, or the reason Ruby would have raised (or aborted) instead. */
  datatype Result<+T, +E> = Success(value: T) | Failure(error: E) {

    predicate IsFailure() {
      Failure?
    }

    function PropagateFailure<U>(): Result<U, E>
      requires Failure?
    {
      Failure(error)
    }

    function Extract(): T
      requires Success?
    {
      value
    }
  }
}
