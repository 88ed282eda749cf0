/** Option, Result and Outcome: how the model spells Java's null and thrown exceptions. */
module Wrappers {

  datatype Option<+T> = None | Some(value: T)

  /** The value of a Java call that either returns `value` or throws `error`. */
  datatype Result<+T, +E> = Success(value: T) | Failure(error: E)

  /** The value of a Java `void` call that either completes or throws `error`. */
  datatype Outcome<+E> = Pass | Fail(error: E)
}
