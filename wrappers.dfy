/** Option and Result, standing for Java's nullable references and thrown exceptions. */
module Wrappers {

  /** A nullable Java reference: `None` is `null`. */
  datatype Option<+T> = None | Some(value: T)

  /** The outcome of a Java call: a returned value or a thrown exception. */
  datatype Result<+T, +E> = Success(value: T) | Failure(error: E)
}
