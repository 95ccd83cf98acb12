/** Failure-aware wrapper types shared by the budget modules. */
module Outcomes {

  /** An optional value, as in a Python argument that defaults to `None`. */
  datatype Option<+T> = None | Some(value: T)

  /** Either a computed value or the error that stopped the computation. */
  datatype Result<+T, +E> = Success(value: T) | Failure(error: E)
}
