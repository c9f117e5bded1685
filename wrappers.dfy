/** Option and Result, the shapes used for Go's nil values and error returns. */
module Wrappers {

  datatype Option<+T> = None | Some(value: T)

  datatype Result<+T, +E> = Ok(value: T) | Err(error: E)

  /** What a Go `UnmarshalText(b []byte) error` method leaves behind: the receiver
      after the call and the error it returned (None for nil). */
  datatype Unmarshalled<+T> = Unmarshalled(receiver: T, err: Option<string>)
}
