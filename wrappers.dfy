/** Option and the outcome of a Rust call that may panic. */
module Wrappers {

  datatype Option<+T> = None | Some(value: T)

  /** A call either returns a value or panics with a message; a panic ends the process. */
  datatype Outcome<+T> = Done(value: T) | Panicked(message: string)
}
