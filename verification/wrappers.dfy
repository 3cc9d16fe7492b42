/** Failure-carrying values used in place of Java's null references and exceptions. */
module Wrappers {

  /** A possibly-null reference: `None` plays the role of Java's `null`. */
  datatype Option<+T> = None | Some(value: T)

  /** The outcome of a call that returns a value or throws. */
  datatype Result<+R, +E> = Success(value: R) | Failure(error: E)

  /** The outcome of a `void` call that returns normally or throws. */
  datatype Outcome<+E> = Pass | Fail(error: E)
}
