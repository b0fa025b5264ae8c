/** The two failure-carrying shapes the server's code returns: Rust's `Option` and `Result`. */
module Basics {

  datatype Option<+T> = None | Some(value: T)

  datatype Result<+T, +E> = Ok(value: T) | Err(error: E)
}
