/** Option and Result, used for absent headers and for the error paths of startup and of
    the authorization query. */
module Wrappers {
  datatype Option<+T> = None | Some(value: T)

  datatype Result<+R, +E> = Success(value: R) | Failure(error: E)
}
