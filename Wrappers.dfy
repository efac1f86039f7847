/** Failure-carrying values used across the model: an optional value (a C# nullable)
    and a result that either holds a value or the exception the source would throw. */
module Wrappers {

  datatype Option<+T> = None | Some(value: T)

  datatype Result<+T, +E> = Success(value: T) | Failure(error: E)
}
