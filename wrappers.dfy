/** Option and Result, used for PHP's `null`/`false` returns and for thrown errors. */
module Wrappers {

  /** `None` stands for PHP's `null` (or `false` where the source uses it as "no value"). */
  datatype Option<+T> = None | Some(value: T)

  /** `Failure` stands for a `WP_Error` return or an exception that aborts the caller. */
  datatype Result<+R, +E> = Success(value: R) | Failure(error: E)
}
