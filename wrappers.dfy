/** Optional values and fallible outcomes shared by every other module.
    A Go `error` is represented by its message. */
module Wrappers {

  type Error = string

  /** Go's nil-able pointer or "no error": `None` stands for nil. */
  datatype Option<+T> = None | Some(value: T)

  /** The outcome of a call that returns `(T, error)` and whose value is
      meaningless when the error is set. */
  datatype Outcome<+T> = Ok(value: T) | Err(error: Error)
}
