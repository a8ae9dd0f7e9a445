/** Java's null, exceptions and void-with-exception returns, as values. */
module Common {

  /** A reference that may be null. */
  datatype Option<+T> = None | Some(value: T)

  /** A value or the exception that the Java code would throw instead. */
  datatype Result<+T, +E> = Ok(value: T) | Err(error: E)

  /** The result of a Java `void` method that may throw. */
  datatype Outcome<+E> = Pass | Fail(error: E)
}
