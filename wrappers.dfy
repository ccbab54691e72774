/** Option and Result, for the client's `None` values and the exceptions it raises. */
module Wrappers {

  datatype Option<+T> = None | Some(value: T)

  /** Either a value or the exception that interrupted the computation. */
  datatype Result<+T, +E> = Success(value: T) | Failure(error: E) {

    predicate IsFailure() {
      Failure?
    }

    function PropagateFailure<U>(): Result<U, E>
      requires Failure?
    {
      Failure(error)
    }

    function Extract(): T
      requires Success?
    {
      value
    }
  }
}
