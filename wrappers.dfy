/** Failure-carrying result types used across the model. */
module Wrappers {

  /** An optional value: the model's stand-in for "absent" fields and for "nothing thrown". */
  datatype Option<+T> = None | Some(value: T)

  /** The outcome of an operation that either yields a value or raises an error. */
  datatype Result<+R, +E> = Success(value: R) | Failure(error: E)
}
