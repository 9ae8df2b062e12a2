/** A value that may be absent: `undefined`/`null` or NaN on the JavaScript side. */
module Wrappers {

  datatype Option<+T> = None | Some(value: T)

  /** A computation that either succeeds or fails with a message. */
  datatype Result<+T> = Ok(value: T) | Err(error: string)

}
