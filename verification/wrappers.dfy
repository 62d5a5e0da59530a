/** Success/failure values for the outcomes of calls the relay makes to
    the chat platform and to the two web services. */
module Wrappers {

  /** A value that may be absent. */
  datatype Option<+T> = None | Some(value: T)

  /** The outcome of a call that may fail, named after Rust's `Result`. */
  datatype Result<+R, +E> = Ok(value: R) | Err(error: E)
}
