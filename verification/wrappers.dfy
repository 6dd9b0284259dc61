/** The stand-ins for C# null and for exceptions used throughout the model. */
module Wrappers {

  /** A C# reference or nullable value: `None` is null. */
  datatype Option<+T> = None | Some(value: T)

  /** The outcome of an operation that may throw: `Failure` carries the exception. */
  datatype Result<+R, +E> = Success(value: R) | Failure(error: E)
}
