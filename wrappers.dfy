/** Optional values and results with an error, for the absent records and the
    thrown errors of the services. */
module Wrappers {

  datatype Option<+T> = None | Some(value: T)

  datatype Result<+R, +E> = Ok(value: R) | Err(error: E)
}
