/** The optional values and the value-or-error results of the model. */
module Wrappers {

  /** An optional value, e.g. an environment variable that may be unset. */
  datatype Option<+T> = None | Some(value: T)

  /** The value of an operation that either succeeds or raises an error with a message. */
  datatype Result<+T> = Success(value: T) | Failure(error: string)
}
