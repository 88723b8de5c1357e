/** Failure-carrying datatypes shared by the rest of the model. */
module Wrappers {

  /** A value that may be absent, in place of a Java `null`. */
  datatype Option<+T> = None | Some(value: T)

  /** Either a computed value or the error that stopped the computation
      (in place of a thrown exception). */
  datatype Result<+R, +E> = Success(value: R) | Failure(error: E)
}
