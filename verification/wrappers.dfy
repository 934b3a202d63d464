/** Failure-compatible wrappers used across the model: an optional value and
    a value-or-error result (the source's `undefined` and thrown exceptions). */
module Wrappers {

  datatype Option<+T> = None | Some(value: T)

  datatype Result<+T, +E> = Ok(value: T) | Err(error: E)
}
