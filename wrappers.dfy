/** Optional values, results of operations that can throw, and pass/fail outcomes. */
module Wrappers {

  /** Swift's `T?`. */
  datatype Option<+T> = None | Some(value: T)

  /** The value of a Swift `throws` function: what it returns, or what it throws. */
  datatype Result<+R, +E> = Success(value: R) | Failure(error: E)

  /** The completion of a Swift `throws` function returning `Void`. */
  datatype Outcome<+E> = Pass | Fail(error: E)
}
