/** Option and Result, standing in for Java's nullable references and thrown exceptions. */
module Wrappers {

  /** A reference that may be null */
  datatype Option<+T> = None | Some(value: T)

  /** An operation that either completes with a value or throws an error */
  datatype Result<+T, +E> = Success(value: T) | Failure(error: E)
}
