/** Optional values and results with an error, used for the absent fields of
    JavaScript objects and for the analyzer's thrown errors. */
module Wrappers {

  datatype Option<+T> = None | Some(value: T)

  datatype Result<+T, +E> = Ok(value: T) | Err(error: E)
}
