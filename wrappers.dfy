/** Optional values and results with an error, for the places where the
    application has `null`, a missing key or a thrown exception. */
module Wrappers {

  datatype Option<+T> = None | Some(value: T)

  datatype Result<+T, +E> = Ok(value: T) | Err(error: E)
}
