/** Optional values and results with an error, used where the source has
    `None` or raises an exception that a caller handles. */
module Wrappers {

  datatype Option<+T> = None | Some(value: T)

  datatype Result<+T, +E> = Ok(value: T) | Err(error: E)
}
