/** Option and Result, the null-or-value and value-or-error shapes the PHP code uses. */
module Wrappers {

  /** `None` stands for PHP's `null`. */
  datatype Option<+T> = None | Some(value: T)

  /** `Failure` stands for a PHP error or exception raised instead of returning. */
  datatype Result<+R, +E> = Success(value: R) | Failure(error: E)
}
