/** Optional values and fallible results shared by the other modules. */
module Wrappers {

  /** An aux tag that may be missing from a record, or a parse that may fail. */
  datatype Option<+T> = None | Some(value: T)

  /** The outcome of an operation the source can abort by throwing. */
  datatype Result<+R, +E> = Success(value: R) | Failure(error: E)
}
