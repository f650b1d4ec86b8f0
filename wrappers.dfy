/** Failure-carrying values: a Go `nil`-able pointer or a `(value, error)` pair. */
module Wrappers {

  datatype Option<T> = None | Some(value: T)

  datatype Result<T, E> = Ok(value: T) | Err(error: E)
}
