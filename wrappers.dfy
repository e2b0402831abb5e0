/** Optional values (Java's nullable references) and results (a value or a thrown exception). */
module Wrappers {

  /** A value that may be absent; `None` stands for Java's `null`. */
  datatype Option<+T> = None | Some(value: T)

  /** Either the value a call returns or the failure it throws. */
  datatype Result<+R, +E> = Success(value: R) | Failure(error: E)
}
