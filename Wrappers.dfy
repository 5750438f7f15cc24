/** Failure-compatible wrappers shared by the other modules. */
module Wrappers {

  datatype Option<+T> = None | Some(value: T)

  /** Either a value or the error a .NET method would have thrown instead. */
  datatype Result<+R, +E> = Success(value: R) | Failure(error: E)
}
