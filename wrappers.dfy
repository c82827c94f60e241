/** Failure-carrying values used in place of thrown exceptions and null references. */
module Wrappers {

  /** A possibly-null reference: `None` stands for `null`. */
  datatype Option<+T> = None | Some(value: T)

  /** The outcome of an operation that returns a value or throws. */
  datatype Result<+R, +E> = Success(value: R) | Failure(error: E)

  /** The outcome of an operation that returns nothing or throws. */
  datatype Outcome<+E> = Pass | Fail(error: E)
}
