/** Option, Result and Poll: the three shapes every operation of the library returns. */
module Wrappers {

  datatype Option<+T> = None | Some(value: T)

  datatype Result<+T, +E> = Ok(value: T) | Err(error: E)

  /** One step of a polled future: not ready yet, or ready with its output. */
  datatype Poll<+T> = Pending | Ready(value: T)
}
