/** Option, Result and Outcome: the model's stand-ins for Python's `None` returns and raised exceptions. */
module Wrappers {

  datatype Option<+T> = None | Some(value: T)

  /** A value or the exception that the Python code raises instead of returning one. */
  datatype Result<+R, +E> = Success(value: R) | Failure(error: E)

  /** The outcome of a procedure that returns nothing or raises. */
  datatype Outcome<+E> = Pass | Fail(error: E)
}
