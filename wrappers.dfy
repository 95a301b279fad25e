/** Optional values, errors and results shared by every module of the model. */
module Wrappers {

  /** Python's `Optional[T]`: `None` or a present value. */
  datatype Option<+T> = None | Some(value: T)

  /** Python's `ValueError(message)`, the only exception the core raises. */
  datatype Error = ValueError(message: string)

  /** A computation that either yields a value or raises a `ValueError`. */
  datatype Result<T> = Ok(value: T) | Err(error: Error)
}
