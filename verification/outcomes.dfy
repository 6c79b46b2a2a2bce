/** How a script invocation ends: with a value, or with one of the failures
    after which it prints a diagnostic and exits with status 1. */
module Outcomes {
  import Json

  datatype Error =
    | MissingCredential                  // HA_TOKEN is unset or empty
    | TransportError                     // the connection ended before an expected message
    | Malformed                          // a reply of unexpected shape made Python raise
    | ProtocolError(got: Json.Value)     // the first message's type was not auth_required
    | AuthError(reply: Json.Value)       // the second message's type was not auth_ok
    | CommandError(message: Json.Value)  // the command's reply had a falsy `success`
    | NotFound                           // nothing matched the request

  datatype Result<+T> = Ok(value: T) | Fail(error: Error)
}
