/** Failure-carrying result types shared by the model: a missing value and a
    value-or-error, standing in for Java's sentinel values and exceptions. */
module Wrappers {

  datatype Option<+T> = None | Some(value: T)

  datatype Result<+T, +E> = Ok(value: T) | Err(error: E)
}
