/** Option and Result, the model's stand-ins for Go's `(value, error)` and `(value, ok)` pairs. */
module Wrappers {

  datatype Option<+T> = None | Some(value: T)

  datatype Result<+R, +E> = Success(value: R) | Failure(error: E)
}
