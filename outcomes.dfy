/** Option, and the outcome of an operation that may panic. */
module Outcomes {

  datatype Option<T> = None | Some(value: T)

  /** A Rust panic (a failed `expect` or `unwrap`) is an explicit outcome here:
      it ends the operation that raised it, and nothing written after the
      panicking call runs. */
  datatype Outcome<R> = Ok(value: R) | Panic(message: string)
}
