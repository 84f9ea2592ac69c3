/** Small failure-carrying datatypes shared by the modules of this project. */
module Wrappers {

  /** A value that may be missing; stands in for JavaScript's `null`/`undefined`. */
  datatype Option<+T> = None | Some(value: T)

  /** The outcome of an operation that may throw: a value, or the message of the thrown error. */
  datatype Result<+T> = Ok(value: T) | Err(message: string)
}
