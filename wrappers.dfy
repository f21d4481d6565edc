/** Optional values and results, the stand-ins for Go's nil pointers and (value, error) pairs. */
module Wrappers {

  /** A nil-able Go pointer, slice or map: `None` is nil. */
  datatype Option<+T> = None | Some(value: T)

  /** A value or the error that replaced it. */
  datatype Result<+T, +E> = Ok(value: T) | Err(error: E)
}
