/** Failure-carrying values used by the bot model. */
module Wrappers {

  /** An optional value: the shape of a Swift `String?` returned by the application handler. */
  datatype Option<+T> = None | Some(value: T)

  /** The outcome of a throwing Swift call: the new value on success, or the error thrown. */
  datatype Result<+T, +E> = Success(value: T) | Failure(error: E)
}
