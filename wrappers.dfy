/** Optional values and results with an error, as used by every module of the model. */
module Wrappers {

  /** A value that may be absent (JavaScript `undefined`, `null` or `NaN`, depending on the use). */
  datatype Option<+T> = None | Some(value: T)

  /** The outcome of an operation that either produces a value or throws. */
  datatype Result<+T, +E> = Ok(value: T) | Err(error: E)
}
