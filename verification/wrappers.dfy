/** Optional values (Java's nullable references and Optional) and success-or-failure results
    (Java's return-or-throw). */
module Wrappers {

  datatype Option<+T> = None | Some(value: T)

  datatype Result<+T, +E> = Success(value: T) | Failure(error: E)
}
