/** Failure-carrying values shared by every module.  A Go `error` is modelled
    by its message text; `nil` is `None`. */
module Wrappers {

  /** The text of a Go `error` value. */
  type Error = string

  datatype Option<T> = None | Some(value: T)

  /** A value, or the error that prevented computing it. */
  datatype Result<T> = Ok(value: T) | Err(error: Error)
}
