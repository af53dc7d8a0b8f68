/** Option and Result, used for JavaScript's `undefined`/`null` and for Python exceptions. */
module Wrappers {

  /** A value that may be absent (`undefined`, `null` or a missing key). */
  datatype Option<+T> = None | Some(value: T)

  /** The outcome of a check that either returns its input or raises an error. */
  datatype Result<+T, +E> = Ok(value: T) | Err(error: E)
}
