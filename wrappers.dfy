/** Option and Outcome: JavaScript's `undefined`/`null` and thrown errors, as values. */
module Wrappers {

  /** A value that may be absent (`undefined` or `null` in the source). */
  datatype Option<+T> = None | Some(value: T)

  /** The result of an operation that either succeeds with nothing to return or fails with an error. */
  datatype Outcome<+E> = Pass | Fail(error: E)
}
