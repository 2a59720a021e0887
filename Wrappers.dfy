/** Result and outcome types standing for the exceptions the Java code throws. */
module Wrappers {

  datatype Option<+T> = None | Some(value: T)

  /** A value, or the exception that the Java method would have thrown instead. */
  datatype Result<+T, +E> = Ok(value: T) | Err(error: E)

  /** The result of a Java `void` method: it returns normally or throws. */
  datatype Outcome<+E> = Pass | Fail(error: E)
}
