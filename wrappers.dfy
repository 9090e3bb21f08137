/** Option and Result, the two failure-carrying datatypes the model uses. */
module Wrappers {

  /** Rust's `Option<T>`: a value that may be absent. */
  datatype Option<+T> = None | Some(value: T)

  /** Rust's `Result<T, E>`: a value or the error that replaced it. */
  datatype Result<+T, +E> = Success(value: T) | Failure(error: E)
}
