/** Optional values and results with an error, standing for Go's nil pointers and (value, error) returns. */
module Wrappers {

  datatype Option<+T> = None | Some(value: T)

  datatype Result<+R, +E> = Success(value: R) | Failure(error: E)

  /** An opaque error value as returned by a Go library call. */
  datatype Error = Error(message: string)
}
