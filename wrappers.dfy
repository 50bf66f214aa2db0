/** Failure-carrying values: Go's nil pointers and `error` returns. */
module Wrappers {

  /** A nullable pointer: `None` is Go's nil. */
  datatype Option<+T> = None | Some(value: T)

  /** A value or the text of a Go `error`. */
  datatype Result<+T> = Ok(value: T) | Err(error: string)
}
