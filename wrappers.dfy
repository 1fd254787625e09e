/** Option and Result, used for nullable pointers, outputs that may be left
    unwritten, and operations that either produce a value or an error. */
module Wrappers {

  datatype Option<+T> = None | Some(value: T)

  /** The value held, or `default` when there is none. */
  function GetOr<T>(o: Option<T>, default: T): T {
    if o.Some? then o.value else default
  }

  /** `o` when it holds a value, `default` otherwise. */
  function OrElse<T>(o: Option<T>, default: Option<T>): Option<T> {
    if o.Some? then o else default
  }

  datatype Result<+R, +E> = Success(value: R) | Failure(error: E)
}
