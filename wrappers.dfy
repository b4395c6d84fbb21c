/** Option and Result, used for the undefined leading positions of the SMA
    column and for the failure branch of the signal engine. */
module Wrappers {

  datatype Option<+T> = None | Some(value: T)

  datatype Result<+R, +E> = Success(value: R) | Failure(error: E)
}
