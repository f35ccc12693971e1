/** Optional values and success-or-error results, used for the absent fields and the
    rejected promises of the application. */
module Wrappers {

  datatype Option<+T> = None | Some(value: T)

  datatype Result<+T, +E> = Ok(value: T) | Err(error: E)
}
