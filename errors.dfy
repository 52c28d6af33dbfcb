/** The two kinds of error the node distinguishes when it reports a failure. */
module Errors {

  datatype Error =
    | ApiError(description: string)   // a `NodeApiError`, raised by the host's HTTP helper
    | PlainError(message: string)     // any other `Error`

  /** `error instanceof NodeApiError ? error.description : error.message` */
  function Describe(e: Error): string {
    match e
    case ApiError(d) => d
    case PlainError(m) => m
  }
}
