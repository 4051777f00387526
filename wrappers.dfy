/** Option and Result, and the error values the foreign calls produce. */
module Wrappers {

  datatype Option<+T> = None | Some(value: T)

  /** A Go `error`: only its identity matters to this model, so it is kept as its message. */
  datatype Error = Error(message: string)

  datatype Result<+T> = Ok(value: T) | Err(error: Error)
}
