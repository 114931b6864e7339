/** Option and Result, standing in for Go's nil pointers/slices and (value, error) returns. */
module Wrappers {

  /** `None` plays the part of a nil pointer or a nil slice. */
  datatype Option<+T> = None | Some(value: T)

  /** A Go `(T, error)` pair where exactly one side is meaningful. */
  datatype Result<+T, +E> = Success(value: T) | Failure(error: E)
}
