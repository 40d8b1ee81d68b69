/** Optional values (JavaScript's `null`/`undefined`) and the outcome of a
    call that may throw, in place of exceptions. */
module Wrappers {

  datatype Option<+T> = None | Some(value: T)

  /** `Success` is a normal return, `Failure` a thrown exception. */
  datatype Result<+R, +E> = Success(value: R) | Failure(error: E)
}
