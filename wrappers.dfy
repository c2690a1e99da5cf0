/**
 * The two wrappers the Rust code returns everywhere: `Option` and `Result`.
 */
module Wrappers {

  datatype Option<T> = None | Some(value: T) {
    /** Rust's `Option::unwrap_or`. */
    function UnwrapOr(default: T): T {
      if Some? then value else default
    }
  }

  datatype Result<T, E> = Ok(value: T) | Err(error: E) {
    /** Rust's `Result::ok()`: the value, forgetting the error. */
    function ToOption(): Option<T> {
      if Ok? then Some(value) else None
    }
  }
}
