/** Small failure-carrying datatypes: Option for Java's nullable values,
    Result and Outcome for Java's thrown exceptions. */
module Wrappers {

  datatype Option<+T> = None | Some(value: T)

  /** The value a Java method returns, or the exception it throws. */
  datatype Result<+T, +E> = Ok(value: T) | Err(error: E)

  /** What a Java `void` method does: return normally, or throw. */
  datatype Outcome<+E> = Pass | Fail(error: E)
}
