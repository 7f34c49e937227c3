/** Option and Result types shared by the other modules. */
module Wrappers {

  /** An optional value: `None` stands for "nothing found". */
  datatype Option<+T> = None | Some(value: T)

  /** The outcome of an operation that either yields a value or fails with an error. */
  datatype Result<+T, +E> = Success(value: T) | Failure(error: E)
}
