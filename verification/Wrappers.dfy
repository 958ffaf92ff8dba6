/** What the components share: an optional field or row, the answer of a call that may be refused
    or raise, and the larger of two numbers. */
module Wrappers {

  datatype Option<+T> = None | Some(value: T)

  /** A refused call leaves the caller's state as it was; the reason is kept for the reader. */
  datatype Result<+T> = Success(value: T) | Failure(reason: string)

  /** A call that returns or raises one of its own errors. */
  datatype Fallible<+T, +E> = Returned(value: T) | Raised(error: E)

  function Max(a: int, b: int): int { if a < b then b else a }
}
