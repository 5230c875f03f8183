/** Option and Result: the null of PHP and the exceptions of the pager, as values. */
module Wrappers {

  /** A value that may be absent (PHP's null). */
  datatype Option<+T> = None | Some(value: T)

  /** The outcome of an operation that either returns a value or throws. */
  datatype Result<+T, +E> = Ok(value: T) | Err(error: E)
}
