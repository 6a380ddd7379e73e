/** An optional value and the result of an operation that may throw. */
module Wrappers {

  /** An optional value: a JavaScript property that may be `undefined`. */
  datatype Option<+T> = None | Some(value: T)

  /** The outcome of an operation that may throw. */
  datatype Result<+T> = Ok(value: T) | Err(message: string)
}
