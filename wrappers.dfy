/** Option and Result, the two failure-carrying shapes the model uses for Go's
    `nil` pointers and `(value, error)` returns. */
module Wrappers {

  /** `None` stands for a Go `nil` pointer (absent or explicitly stored nil). */
  datatype Option<+T> = None | Some(value: T)

  /** A Go `(value, error)` pair where exactly one side is meaningful. */
  datatype Result<+T, +E> = Success(value: T) | Failure(error: E)
}
