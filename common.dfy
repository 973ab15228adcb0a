/** Small failure-carrying datatypes shared by the model. */
module Common {

  /** A value that may be missing: a port provider call that failed yields None. */
  datatype Option<+T> = None | Some(value: T)

  /** The result of an operation that returns nothing but may raise an error. */
  datatype Outcome<+E> = Pass | Fail(error: E)
}
