/** Option and Result, the two failure-carrying datatypes the model needs. */
module Wrappers {

  /** A value that may be absent: an unset environment variable, a missing map key. */
  datatype Option<+T> = None | Some(value: T)

  /** Either a computed value or the error that stopped the computation. */
  datatype Result<+R, +E> = Success(value: R) | Failure(error: E)
}
