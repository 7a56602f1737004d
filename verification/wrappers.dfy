/** The optional value and the may-throw result shared by the whole model. */
module Wrappers {

  /** A value that may be missing (a JavaScript `null`). */
  datatype Option<+T> = None | Some(value: T)

  /** The result of a step that may throw: `Err` carries the exception's message. */
  datatype Result<+T> = Ok(value: T) | Err(message: string)
}
