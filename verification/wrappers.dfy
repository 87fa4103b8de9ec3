/** Option and Result, the failure-carrying datatypes used throughout the model.
    A JavaScript `undefined`/`null` return becomes `None`, a thrown error `Failure`. */
module Wrappers {

  datatype Option<+T> = None | Some(value: T)

  datatype Result<+R, +E> = Success(value: R) | Failure(error: E)
}
