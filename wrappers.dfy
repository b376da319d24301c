/** Failure-compatible wrappers used across the model. */
module Wrappers {

  /** A value that may be absent: a Kotlin nullable, or a preferences key that was never written. */
  datatype Option<+T> = None | Some(value: T)

  /** The outcome of an operation that can throw: `Err` stands for the exception. */
  datatype Result<+T, +E> = Ok(value: T) | Err(error: E)
}
