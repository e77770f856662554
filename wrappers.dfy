/** Option and Result, the two failure-carrying shapes the client's Go code uses. */
module Wrappers {

  /** A value that may be absent; `None` plays the role of Go's nil. */
  datatype Option<+T> = None | Some(value: T)

  /** A Go `(value, error)` pair from a foreign call: a value, or an error carrying its message. */
  datatype Result<+T> = Ok(value: T) | Err(msg: string)
}
