/** Option and Result, used for absent fields and for the validator's error path. */
module Wrappers {

  /** An optional value: `None` stands for a field that is absent, empty or undefined. */
  datatype Option<+T> = None | Some(value: T)

  /** The outcome of an operation that either produces a value or fails with an error. */
  datatype Result<+R, +E> = Success(value: R) | Failure(error: E)
}
