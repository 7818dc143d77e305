/** Failure-compatible helper datatypes shared by the modules of this model. */
module Wrappers {

  /** A Swift optional: `nil` or a wrapped value. */
  datatype Option<T> = None | Some(value: T)

  /** The outcome of a throwing Swift call: a result, or the error it throws. */
  datatype Result<T, E> = Success(value: T) | Failure(error: E)
}
