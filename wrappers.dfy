/** Option and Result: a value that may be absent, and the outcome of a step that may throw. */
module Wrappers {

  datatype Option<+T> = None | Some(value: T)

  /** Failure carries the message of the error the JavaScript code would throw. */
  datatype Result<+T> = Success(value: T) | Failure(message: string)
}
