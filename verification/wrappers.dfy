/** Failure-carrying datatypes shared by the worker model. */
module Wrappers {

  /** An optional value: no job held, or no document read. */
  datatype Option<+T> = None | Some(value: T)

  /** Either a value or the reason the worker process stops. */
  datatype Result<+R, +E> = Success(value: R) | Failure(error: E)
}
