/** Failure-carrying values: Rust's `Result` and `Option`, and an outcome for
    operations that either succeed with no value or fail. */
module Wrappers {

  datatype Option<+T> = None | Some(value: T)

  datatype Result<+T, +E> = Ok(value: T) | Err(error: E)

  datatype Outcome<+E> = Pass | Fail(error: E)
}
