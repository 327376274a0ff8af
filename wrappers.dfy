/** Failure-carrying values used in place of the source's exceptions. */
module Wrappers {

  datatype Option<+T> = None | Some(value: T)

  /** Either a value or the error that the source would have raised. */
  datatype Result<+T, +E> = Ok(value: T) | Err(error: E)
}
