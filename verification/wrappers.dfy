/** The wrappers used across the model: `Option` for values a
    PHP array may or may not hold (an unset key, a `null` return), and
    `Result` for operations that either produce a value or throw. */
module Wrappers {

  datatype Option<+T> = None | Some(value: T) {

    /** The value, or `default` when absent (PHP's `??`). */
    function GetOr(default: T): T {
      match this
      case Some(v) => v
      case None => default
    }

    /** This option when it holds a value, otherwise `other`: a regex
        alternation that falls through to its next branch. */
    function OrElse(other: Option<T>): Option<T> {
      if Some? then this else other
    }

    /** Zero or one element, as appended by `$list[] = $x` when `$x` is truthy. */
    function ToSeq(): seq<T> {
      match this
      case Some(v) => [v]
      case None => []
    }
  }

  /** The outcome of a call that may throw: `Failure` carries the exception message. */
  datatype Result<+T, +E> = Success(value: T) | Failure(error: E)
}
