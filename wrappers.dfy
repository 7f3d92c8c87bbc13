/** Small failure-carrying datatypes shared by the rest of the model. */
module Wrappers {

  /** A value that may be missing: Python's `None` versus a present value. */
  datatype Option<+T> = None | Some(value: T)

  /** The outcome of a Python expression that may raise: either it raised an
      exception (which some enclosing `except` catches) or it returned a value. */
  datatype Try<+T> = Raised | Ok(value: T)
}
