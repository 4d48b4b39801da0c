/** Optional values and results shared by the model. */
module Common {

  /** `undefined` versus a present value. */
  datatype Option<+T> = None | Some(value: T)

  /** A normal result versus a thrown error. */
  datatype Result<+R, +E> = Success(value: R) | Failure(error: E)

}
