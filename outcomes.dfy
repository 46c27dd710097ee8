/** How a call ends: the promise it returns resolves, rejects, or never settles. */
module Outcomes {
  import opened JsValue

  const SyntaxMessage := "Expected a \"namespace/method/version\" syntax."
  const CredentialsMessage := "Can't create handshake without credentials."

  /** What a rejected call carries. */
  datatype Failure =
      /** `new Error(SyntaxMessage)`: the method string has fewer than three parts. */
    | InvalidMethod
      /** `new Error(CredentialsMessage)`: neither credential set is configured. */
    | MissingCredentials
      /** The login answered, but its response has no truthy `result`; the
          response itself is the rejection value. */
    | LoginRefused(response: Value)
      /** The transport's own error, passed on unchanged. */
    | TransportError(cause: Value)
  {
    /** The message of the `Error` objects the client creates itself. */
    function Message(): (m: Option<string>)
      ensures InvalidMethod? ==> m == Some(SyntaxMessage)
      ensures MissingCredentials? ==> m == Some(CredentialsMessage)
      ensures m.Some? <==> InvalidMethod? || MissingCredentials?
    {
      match this
      case InvalidMethod => Some(SyntaxMessage)
      case MissingCredentials => Some(CredentialsMessage)
      case _ => None
    }
  }

  /** The settled state of a promise. `Unsettled` is a promise that never
      settles because the callback meant to settle it threw instead. */
  datatype Outcome<+T> = Resolved(value: T) | Rejected(error: Failure) | Unsettled
}
