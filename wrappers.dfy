/** Option, the client's error kinds, and a failure-compatible Result over them. */
module Wrappers {

  datatype Option<+T> = None | Some(value: T)

  /** The errors the client can surface (Go `error` values, by kind). */
  datatype Error =
    | UnmarshalTypeError(field: string)  // a JSON value of the wrong kind for a Go field, or a number it cannot hold
    | URLParseError(url: string)         // url.Parse rejected the configured base URL
    | SolverError(message: string)       // errors.New(envelope message) for a non-"ok" status
    | TransportError(detail: string)     // the HTTP exchange or the envelope decoding failed

  datatype Result<+T> = Success(value: T) | Failure(error: Error) {

    predicate IsFailure() {
      Failure?
    }

    function PropagateFailure<U>(): Result<U>
      requires Failure?
    {
      Failure(error)
    }

    function Extract(): T
      requires Success?
    {
      value
    }
  }
}
