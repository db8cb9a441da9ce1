/**
  Option and Result: Ruby's `nil` and raised exceptions, made explicit.
 */
module Wrappers {

  /** A value that may be absent (Ruby `nil`). */
  datatype Option<+T> = None | Some(value: T)

  /** Either a returned value or the error that was raised instead. */
  datatype Result<+T, +E> = Success(value: T) | Failure(error: E)
}
