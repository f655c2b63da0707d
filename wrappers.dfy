/** Option and Result values shared by the other modules (plain datatypes, not usable with `:-`). */
module Wrappers {

  /** An optional value: JavaScript's `undefined` argument is `None`. */
  datatype Option<+T> = None | Some(value: T)

  /** The outcome of an operation that may throw: `Err` carries the message of the thrown `Error`. */
  datatype Result<+T> = Ok(value: T) | Err(error: string)
}
