/** Failure-carrying values used in place of Java's null and exceptions. */
module Wrappers {

  /** A Java reference that may be null: `None` is null. */
  datatype Option<T> = None | Some(value: T)

  /** A call that either returns a value or throws. */
  datatype Result<T, E> = Success(value: T) | Failure(error: E)

  /** A void call that either returns normally or throws. */
  datatype Outcome<E> = Pass | Fail(error: E)
}
