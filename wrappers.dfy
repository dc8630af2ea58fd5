/** Failure-compatible wrappers shared by the other modules. */
module Wrappers {

  /** A value that may be missing: `None` stands for Java's `null` or JavaScript's `undefined`. */
  datatype Option<+T> = None | Some(value: T)

  /** The outcome of an operation that either returns a value or throws. */
  datatype Result<+T, +E> = Ok(value: T) | Err(error: E)
}
