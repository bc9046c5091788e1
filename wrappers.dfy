/** Small failure-carrying datatypes shared by every module of the model. */
module Wrappers {

  /** Python's `None` versus a present value. */
  datatype Option<+T> = None | Some(value: T)

  /** The outcome of Python code that may raise: a returned value, or an
      exception that propagates to the caller. */
  datatype Result<+T> = Ok(value: T) | Raised
}
