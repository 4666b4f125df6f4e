/** Optional values and fallible results, in place of JavaScript's `undefined` and exceptions. */
module Wrappers {

  /** `None` stands for a value that is `undefined` or `null`. */
  datatype Option<+T> = None | Some(value: T)

  /** `Failure` stands for an exception the source throws. */
  datatype Result<+R, +E> = Success(value: R) | Failure(error: E)
}
