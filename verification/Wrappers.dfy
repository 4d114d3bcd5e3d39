/** Values that may be missing, and answers that may be errors of some kind. */
module Wrappers {

  datatype Option<+T> = None | Some(value: T)

  datatype Try<+T, +E> = Ok(value: T) | Err(error: E)
}
