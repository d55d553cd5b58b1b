/** Failure-carrying values shared by every module: the Python code signals
    errors by raising, which the model turns into a `Failure` result. */
module Wrappers {

  datatype Option<+T> = None | Some(value: T)

  datatype Result<+R, +E> = Success(value: R) | Failure(error: E)
}
