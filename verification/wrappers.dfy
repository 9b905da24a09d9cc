/** Failure-carrying wrappers shared by the other modules. */
module Wrappers {

  /** A value that may be missing; also stands for a .NET reference that may be null. */
  datatype Option<+T> = None | Some(value: T)

  /** The outcome of an operation that either produces a value or fails with an error
      (the model of a thrown exception). */
  datatype Result<+T, +E> = Success(value: T) | Failure(error: E)
}
