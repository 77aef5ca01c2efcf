/** Option and Result, shared by the modules of this model:
    Option stands for a Java reference that may be null, Result for a
    value that is either returned or thrown as an exception. */
module Wrappers {

  datatype Option<+T> = None | Some(value: T)

  datatype Result<+R, +E> = Success(value: R) | Failure(error: E)
}
