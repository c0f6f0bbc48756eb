/** Small helper datatypes for absent values and pass/fail outcomes, shared by the other modules. */
module Wrappers {

  /** A value that may be absent. */
  datatype Option<+T> = None | Some(value: T)

  /** The result of a check that either passes or fails with an error value. */
  datatype Outcome<+E> = Pass | Fail(error: E)
}
