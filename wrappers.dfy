/** Optional values and results with an error message, used for the
    fields the source leaves out and the errors its library calls return. */
module Wrappers {

  datatype Option<+T> = None | Some(value: T)

  /** The `(value, error)` pair a Go library call returns, as a sum. */
  datatype Result<+T> = Ok(value: T) | Err(error: string)
}
