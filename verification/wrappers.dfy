/** Failure-carrying values shared by the other modules. */
module Wrappers {

  /** A value that may be absent (a Go nil pointer, a nil error). */
  datatype Option<T> = None | Some(value: T)

  /** A value or the error that replaced it (Go's `(T, error)` pair). */
  datatype Result<T, E> = Ok(value: T) | Err(error: E)
}
