/** Option and Result values for Go's `(value, error)` pairs and nil results. */
module Wrappers {

  /** A Go value that may be nil: a missing bucket key, a nil error. */
  datatype Option<+T> = None | Some(value: T)

  /** The outcome of a foreign call that returns a value or an error message. */
  datatype Result<+T, +E> = Success(value: T) | Failure(error: E)
}
