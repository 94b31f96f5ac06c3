/** Shared failure-free and failure-carrying wrappers, used where the operator has a nil pointer or an error return. */
module Wrappers {

  datatype Option<+T> = None | Some(value: T)

  datatype Result<+T, +E> = Success(value: T) | Failure(error: E)
}
