/** Optional values and fallible results shared by the modules of this model. */
module Wrappers {

  /** A value that may be absent (the source's `null`/`undefined`, or `NaN` for a parsed id). */
  datatype Option<+T> = None | Some(value: T)

  /** The outcome of an operation that the source can abort with a thrown error. */
  datatype Result<+T, +E> = Success(value: T) | Failure(error: E)
}
