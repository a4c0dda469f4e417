/** Optional values and results shared by the note-creation model and the alias listing. */
module Wrappers {

  /** A value that may be absent: Go's `(T, bool)` returns and zk's `opt.String`. */
  datatype Option<+T> = None | Some(value: T)

  /** A value or the error that replaced it: Go's `(T, error)` returns. */
  datatype Result<+T, +E> = Ok(value: T) | Err(error: E)
}
