/** Option and Result, used for a temp file that may not have been created and for a
    constructor that may refuse its argument. */
module Wrappers {

  datatype Option<+T> = None | Some(value: T)

  datatype Result<+R, +E> = Success(value: R) | Failure(error: E)
}
