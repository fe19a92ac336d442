/** Option and Result, the shapes in which the model states presence and failure. */
module Wrappers {

  /** Zero or one value: the storage of `std::optional<T>`. */
  datatype Option<+T> = None | Some(value: T)

  /** The outcome of a checked operation that may fail with an error. */
  datatype Result<+R, +Err> = Success(value: R) | Failure(error: Err)
}
