/** The error values of the package: the sentinel errors of errors.go, the ad-hoc errors
    that auth.go and socks5.go create with errors.New, and the errors of the I/O layer. */
module Errors {

  datatype Error =
    // errors.go:6-12
    | InvalidField
    | VerNotSupport
    | CmdNotSupport
    | AtypNotSupport
    | MethodVerNotSupport
    | PasswordAuthFailure
    | PasswordCheckerNotSet
      // auth.go:32 builds a fresh error with the same text as VerNotSupport; it is not equal to it
    | AuthVerNotSupport
      // socks5.go:124
    | MethodNotAcceptable
      // io.ReadFull: nothing left at all, or fewer bytes left than asked for
    | EOF
    | UnexpectedEOF
      // a failed conn.Write
    | WriteFailed

  /** A Go `error` that may be nil (None). */
  datatype Option<T> = None | Some(value: T)

  /** A Go `(value, error)` pair where exactly one half is meaningful. */
  datatype Result<T> = Ok(value: T) | Err(error: Error)
}
