/** Failure-compatible wrappers shared by every module: Option stands for a
    Kotlin nullable value, Result for a value or the exception that replaces it. */
module Wrappers {

  datatype Option<+T> = None | Some(value: T)

  datatype Result<+T, +E> = Success(value: T) | Failure(error: E)
}
