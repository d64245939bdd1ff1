/** The two failure-carrying shapes used by the model: an optional value
    (a Java reference that may be null) and a result that is either a value
    or the error that a Java method would have thrown. */
module Wrappers {
  datatype Option<+T> = None | Some(value: T)

  datatype Result<+T, +E> = Success(value: T) | Failure(error: E)
}
