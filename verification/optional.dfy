/**
 * Absent-or-present values and success-or-failure outcomes.
 *
 * JavaScript's `undefined` (a missing option, a key a record does not have,
 * an array `find` that found nothing) is written `None`; a call that throws
 * returns `Failure` with the thrown message.
 */
module Optional {

  /** A value that may be missing. */
  datatype Option<+T> = None | Some(value: T) {

    /** The value, or `default` when it is missing (JavaScript's `x ?? default`). */
    function GetOr(default: T): T {
      match this
      case Some(v) => v
      case None => default
    }
  }

  /** The outcome of a call that either returns a value or throws an error. */
  datatype Result<+T, +E> = Success(value: T) | Failure(error: E)
}
