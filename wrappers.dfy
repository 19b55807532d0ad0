/** Small result types shared by the whole model. */
module Wrappers {

  /** Rust's `Option`. */
  datatype Option<+T> = None | Some(value: T)

  /** The result of a computation that either finishes with a value or
      panics (aborts the whole process), as an out-of-range or
      non-char-boundary string slice does in Rust. */
  datatype Outcome<+T> = Done(value: T) | Panicked

  /** Rust's `Result`, for errors that are returned rather than raised. */
  datatype Result<+T, +E> = Ok(value: T) | Err(error: E)
}
