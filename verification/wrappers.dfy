/** Option and Result, the two failure-carrying shapes the model uses for Java's
    nullable references and thrown exceptions. */
module Wrappers {

  /** A nullable Java reference: None stands for null. */
  datatype Option<+T> = None | Some(value: T)

  /** The outcome of a Java call that either returns a value or throws. */
  datatype Result<+R, +E> = Success(value: R) | Failure(error: E)
}
