/** Option and Result: the nullable references and exceptions of the Java code, as values. */
module Wrappers {

  /** A possibly absent value, for a `@Nullable` reference. */
  datatype Option<+T> = None | Some(value: T)

  /** Either a normal return value or the exception that ended the call. */
  datatype Result<+T, +E> = Success(value: T) | Failure(error: E)
}
