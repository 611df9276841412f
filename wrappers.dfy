/** The optional-value and success-or-error datatypes shared by the other modules. */
module Wrappers {

  /** An optional value: the absent case of a nullable slot or list. */
  datatype Option<+T> = None | Some(value: T)

  /** The outcome of an operation that returns nothing on success, like Rust's `Result<()>`. */
  datatype Outcome<+E> = Pass | Fail(error: E)
}
