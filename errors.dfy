/** Go's `error` returns, in Dafny terms. */
module Errors {

  /** A Go `error` value: `nil`, or an error carrying its message. */
  datatype Error = Nil | Error(msg: string)

  /** What an external call returns: a value, or an error message instead. */
  datatype Result<T> = Ok(value: T) | Fail(msg: string)
}
