/** Failure-compatible wrappers shared by the handlers' model. */
module Wrappers {

  /** A value that may be absent (JavaScript's `undefined`). */
  datatype Option<+T> = None | Some(value: T)

  /** A check that either passes or fails with an error value. */
  datatype Outcome<+E> = Pass | Fail(error: E)
}
