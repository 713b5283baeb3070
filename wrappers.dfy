/** Option and Result: the two failure-compatible wrappers the model uses for
    "not found" lookups and for operations that reject their input. */
module Wrappers {

  datatype Option<+T> = None | Some(value: T)

  datatype Result<+T, +E> = Ok(value: T) | Err(error: E)
}
