/** Failure-compatible wrappers shared by every module of the model. */
module Wrappers {

  /** A value that may be absent: Python's `None`, or a pandas NaN warm-up value. */
  datatype Option<+T> = None | Some(value: T)

  /** The outcome of an operation that may raise: `Failure` carries the error message. */
  datatype Result<+R> = Success(value: R) | Failure(error: string)
}
