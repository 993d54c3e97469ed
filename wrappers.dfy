/** Optional values and results with an error message, shared by the other modules. */
module Wrappers {

  /** A value that may be absent: Go's nil map, a missing error. */
  datatype Option<+T> = None | Some(value: T)

  /** The outcome of an operation that can fail with a message (Go's `(T, error)`). */
  datatype Result<+T> = Ok(value: T) | Err(msg: string)
}
