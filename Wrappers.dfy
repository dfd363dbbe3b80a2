/** Optional values, results of calls that may throw, and the truthiness
    test JavaScript applies to a string that may be undefined. */
module Wrappers {

  datatype Option<+T> = None | Some(value: T)

  /** The outcome of a call that either returns a value or throws. */
  datatype Result<+R, +E> = Success(value: R) | Failure(error: E)

  /** A possibly-undefined string is truthy exactly when it is defined and
      not the empty string. */
  predicate Truthy(s: Option<string>)
  {
    s.Some? && s.value != ""
  }
}
