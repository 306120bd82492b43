/** Failure-carrying values used in place of JavaScript's `undefined`
    and of thrown exceptions. */
module Wrappers {

  /** An optional field of a request record: `None` is `undefined`. */
  datatype Option<+T> = None | Some(value: T)

  /** A value, or the error an operation threw instead of producing it. */
  datatype Result<+T, +E> = Ok(value: T) | Err(error: E)

  /** The outcome of a validation that returns nothing when it passes. */
  datatype Check<+E> = Pass | Fail(error: E)
}
