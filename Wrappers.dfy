/** Small failure-carrying datatypes shared by the broadcast-channel model. */
module Wrappers {

  /** A nullable value: a datastore property that may be unset. */
  datatype Option<T> = None | Some(value: T)

  /** The value of an operation that may raise instead of returning. */
  datatype Result<T> = Success(value: T) | Failure(error: string)

  /** The completion of an operation that returns nothing but may raise. */
  datatype Outcome = Pass | Fail(error: string)
}
