/** Option and Result, the two failure-carrying values the model uses in place
    of Go's `nil` pointers and `error` returns. */
module Wrappers {

  datatype Option<+T> = None | Some(value: T)

  datatype Result<+T, +E> = Success(value: T) | Failure(error: E)
}
