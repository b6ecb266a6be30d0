/** Optional values and the two shapes of a settled promise: one that resolves
    to a value or rejects (Result), and one that resolves to nothing or rejects
    (Outcome). `None` stands for JavaScript's `undefined`. */
module Wrappers {
  datatype Option<+T> = None | Some(value: T)

  datatype Result<+T, +E> = Success(value: T) | Failure(error: E)

  datatype Outcome<+E> = Pass | Fail(error: E)
}
