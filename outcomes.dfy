/** Optional values and success-or-failure results, standing in for Java's
    nullable references and checked exceptions. */
module Outcomes {

  /** A value that may be absent (a Java `null`). */
  datatype Option<+T> = None | Some(value: T)

  /** The outcome of an operation that either returns a value or throws. */
  datatype Result<+T, +E> = Ok(value: T) | Err(error: E)
}
