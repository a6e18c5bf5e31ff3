/** Option, Result and Outcome, shared by every module of the model. */
module Wrappers {

  /** A nullable value: `None` is SQL NULL or Python `None`. */
  datatype Option<+T> = None | Some(value: T)

  /** The value of an operation that may raise. */
  datatype Result<+T, +E> = Ok(value: T) | Err(error: E)

  /** The outcome of an operation that returns nothing but may raise. */
  datatype Outcome<+E> = Pass | Fail(error: E)
}
