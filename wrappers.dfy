/** Optional values and results, shared by the modules of the model. */
module Wrappers {

  /** A value that may be missing: Python's `None` default. */
  datatype Option<+T> = None | Some(value: T)

  /** The outcome of an operation that may raise. */
  datatype Result<+T, +E> = Success(value: T) | Failure(error: E)
}
