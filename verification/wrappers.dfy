/** Optional values and success-or-error results, standing in for Java's
    nullable references and thrown exceptions. */
module Wrappers {

  /** A value that may be absent: `None` plays the role of Java's `null`. */
  datatype Option<+T> = None | Some(value: T)

  /** Either a computed value or the error that a Java method would throw. */
  datatype Result<+T, +E> = Success(value: T) | Failure(error: E)
}
