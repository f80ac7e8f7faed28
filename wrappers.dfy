/** Option and Result values shared by the two agent models. */
module Wrappers {

  /** Python's optional value: `None`, or a present value. */
  datatype Option<+T> = None | Some(value: T)

  /** The outcome of a call that may raise: a value, or the exception it raised (its message). */
  datatype Result<+T> = Ok(value: T) | Err(error: string)
}
