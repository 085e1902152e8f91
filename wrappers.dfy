/** Failure-compatible wrappers shared by the modules of the weather client model. */
module Wrappers {

  /** A value that may be absent (JavaScript `null` / `undefined`). */
  datatype Option<+T> = None | Some(value: T)

  /** A value, or the error a JavaScript promise would reject with. */
  datatype Result<+R, +E> = Success(value: R) | Failure(error: E)

  /** The outcome of an action that returns nothing but may throw. */
  datatype Outcome<+E> = Pass | Fail(error: E)
}
