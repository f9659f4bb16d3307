/** Failure-carrying values. The Go source reports failures as `error` values whose only
    observable content is their message, so every failure here carries a string. */
module Wrappers {

  datatype Option<+T> = None | Some(value: T)

  /** A value or an error, as in Go's `(T, error)` return pairs. */
  datatype Result<+T> = Ok(value: T) | Err(message: string)

  /** An `error` return on its own: nil (`Pass`) or an error with its message. */
  datatype Outcome = Pass | Fail(message: string)
}
