/** Failure-carrying values used in place of Java's null, Optional and thrown exceptions. */
module Wrappers {

  /** Absent-or-present value: stands for a nullable reference or a java.util.Optional. */
  datatype Option<+T> = None | Some(value: T)

  /** Either a value or a typed error: stands for a method that returns or throws. */
  datatype Result<+T, +E> = Ok(value: T) | Err(error: E)
}
