/** Small failure-carrying datatypes shared by the backlight model. */
module Wrappers {

  /** A value that may be absent: a dispatch that found no match is None. */
  datatype Option<T> = None | Some(value: T)

  /** The result of an operation that either produces a value or throws. */
  datatype Result<T> = Success(value: T) | Failure(error: string)

  /** The result of an operation that produces nothing but may throw. */
  datatype Outcome = Pass | Fail(error: string)
}
