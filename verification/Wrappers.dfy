module Wrappers {
  datatype Option<+T> = None | Some(value: T)

  /** What a call that may throw gives back: its value, or what it threw. */
  datatype Result<+T, +E> = Ok(value: T) | Err(error: E)
}
