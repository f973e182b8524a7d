/** The failure-compatible result used in place of Python's `raise ValueError(...)`.
    Every failing operation of the application raises `ValueError` with a fixed
    message; the model returns `Failure(ValueError(message))` instead. */
module Outcome {

  /** The only exception class the application raises. */
  datatype Error = ValueError(message: string)

  /** A value that may be absent. */
  datatype Option<+T> = None | Some(value: T)

  /** A value produced by an operation, or the error it raised. */
  datatype Result<+T> = Success(value: T) | Failure(error: Error) {

    predicate IsFailure() {
      Failure?
    }

    function PropagateFailure<U>(): Result<U>
      requires Failure?
    {
      Failure(error)
    }

    function Extract(): T
      requires Success?
    {
      value
    }
  }
}
