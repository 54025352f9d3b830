/** Optional values and results with an error, for the model's optional
    arguments and for operations that raise. */
module Wrappers {

  datatype Option<+T> = None | Some(value: T)

  datatype Result<+T, +E> = Ok(value: T) | Err(error: E)
}
