/** Failure-compatible wrappers shared by the client and the server model. */
module Wrappers {

  /** A value that may be absent: JavaScript's `null`/`undefined` next to a value. */
  datatype Option<+T> = None | Some(value: T)

  /** The outcome of an operation that can throw; the error carries the thrown message. */
  datatype Result<+T> = Ok(value: T) | Err(message: string)
}
