/** Failure-compatible wrappers used across the model: `Option` stands for a
    .NET reference that may be null, `Result` and `Outcome` for an operation
    that may throw. */
module Wrappers {

  datatype Option<+T> = None | Some(value: T)

  datatype Result<+T, +E> = Success(value: T) | Failure(error: E)

  datatype Outcome<+E> = Pass | Fail(error: E)
}
