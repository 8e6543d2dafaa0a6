/** Failure-carrying datatypes shared by the model: `Option` for Rust's
    `Option<T>` and `Result` for Rust's `Result<T, E>` (the source uses
    `anyhow::Result`, whose error value is opaque to this model). */
module Wrappers {

  datatype Option<+T> = None | Some(value: T)

  datatype Result<+T, +E> = Ok(value: T) | Err(error: E)
}
