/** Option and Result: the model's stand-ins for Go's `(value, error)` pairs and nil. */
module Wrappers {

  datatype Option<+T> = None | Some(value: T)

  datatype Result<+T, +E> = Success(value: T) | Failure(error: E)
}
