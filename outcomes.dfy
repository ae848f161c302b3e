/** Result and extended-real values shared by the whole model. */
module Outcomes {

  /** The outcome of an operation that the source may abort with an exception. */
  datatype Result<+T, +E> = Success(value: T) | Failure(error: E)

  datatype Option<+T> = None | Some(value: T)

  /** A float that may be minus or plus infinity (numpy's -np.inf / np.inf). */
  datatype ExtReal = NegInf | Fin(r: real) | PosInf
}
