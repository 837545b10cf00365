/** Option and Result, used for JavaScript's null/undefined and for thrown errors. */
module Wrappers {

  /** A value that may be absent: None stands for JavaScript's null or undefined. */
  datatype Option<+T> = None | Some(value: T)

  /** The value of a computation or the message of the Error it throws. */
  datatype Result<+T, +E> = Ok(value: T) | Err(error: E)
}
