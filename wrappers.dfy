/** Rust's `Option` and `Result`, for the model's optional values and error returns. */
module Wrappers {

  /** Rust's `Option<T>`. */
  datatype Option<+T> = None | Some(value: T)

  /** Rust's `Result<T, E>`. */
  datatype Result<+T, +E> = Ok(value: T) | Err(error: E)
}
