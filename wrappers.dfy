/** Failure-carrying values used in place of C# null and exceptions. */
module Wrappers {

  /** A C# nullable reference: None stands for null. */
  datatype Option<+T> = None | Some(value: T)

  /** What a call that either returns a value or throws produces. */
  datatype Result<+T, +E> = Success(value: T) | Failure(error: E)

  /** What a void call that may throw produces. */
  datatype Outcome<+E> = Pass | Fail(error: E)
}
