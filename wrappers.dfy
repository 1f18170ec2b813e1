/** Failure-carrying return values: Go's `(T, error)` and bare `error` results. */
module Wrappers {

  datatype Option<+T> = None | Some(value: T)

  /** The outcome of an operation that returns a value or an error. */
  datatype Result<+T, +E> = Ok(value: T) | Err(error: E)

  /** The outcome of an operation that returns only an error (nil on success). */
  datatype Outcome<+E> = Pass | Fail(error: E)
}
