/** `Option` and `Result` types used by the configuration model. */
module Wrappers {

  /** A value that a build-environment macro may or may not define. */
  datatype Option<+T> = None | Some(value: T)

  /** The outcome of a resolution pass: a value, or the reason the build stops. */
  datatype Result<+R, +E> = Success(value: R) | Failure(error: E)
}
