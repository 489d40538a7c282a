/** Optional values and results with an error message, shared by every module. */
module Wrappers {

  /** A value that may be absent (JavaScript's `undefined`/`null`). */
  datatype Option<+T> = None | Some(value: T)

  /** The outcome of a step that may fail with an error message (a thrown `Error`). */
  datatype Result<+T> = Ok(value: T) | Err(message: string)
}
