/** Failure-carrying wrappers used for the panicking `unwrap` paths and the
    fallible constructors of the model. */
module Wrappers {

  datatype Option<+T> = None | Some(value: T)

  datatype Result<+R, +E> = Success(value: R) | Failure(error: E)
}
