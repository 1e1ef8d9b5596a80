/** Optional values (Go's nil pointers and nil errors) and success-or-error results. */
module Wrappers {
  datatype Option<+T> = None | Some(value: T)

  datatype Result<+R, +E> = Success(value: R) | Failure(error: E)
}
