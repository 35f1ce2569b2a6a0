/** Option and Result values, used for the Go code's `error` returns and nil values. */
module Wrappers {

  datatype Option<+T> = None | Some(value: T)

  /** A Go `(value, error)` pair: `Err` stands for a non-nil error and carries its text. */
  datatype Result<+T> = Ok(value: T) | Err(error: string)
}
