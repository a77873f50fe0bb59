/** Outcome types shared by the whole model. */
module Wrappers {

  datatype Option<+T> = None | Some(value: T)

  /** An error the server answers with: the HTTP status and the message of the
      error object (`ApiError`, or a plain `Error` that surfaces as 500). */
  datatype ApiError = ApiError(status: nat, message: string)

  /** The outcome of a request handler: its payload, or the error it throws. */
  datatype Result<+T> = Ok(value: T) | Err(error: ApiError)

  /** JavaScript truthiness of an optional string: `undefined` and `""` are falsy. */
  predicate Falsy(s: Option<string>) {
    s.None? || s.value == ""
  }

  /** JavaScript truthiness of an optional number: `undefined` and `0` are falsy. */
  predicate FalsyNumber(n: Option<int>) {
    n.None? || n.value == 0
  }
}
