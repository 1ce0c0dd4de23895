/** Failure-compatible wrappers standing in for Java's nullable references and thrown exceptions. */
module Wrappers {

  /** A Java reference that may be null: None is null. */
  datatype Option<+T> = None | Some(value: T)

  /** A call that either returns a value or throws the given exception. */
  datatype Result<+T, +E> = Success(value: T) | Failure(error: E)

  /** A void call that either completes normally or throws the given exception. */
  datatype Outcome<+E> = Pass | Fail(error: E)
}
