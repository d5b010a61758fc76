/** Wrappers used across the model: Go's `(value, error)` pairs and Python
    exceptions become `Result`, nil pointers become `Option`. */
module Wrappers {

  datatype Option<+T> = None | Some(value: T)

  datatype Result<+T, +E> = Ok(value: T) | Err(error: E)
}
