/** Option, and the HTTP-style error the routes answer with. */
module Wrappers {

  datatype Option<+T> = None | Some(value: T)

  /** An HTTP-style error: a status code and the message the server sends back. */
  datatype HttpError = HttpError(status: nat, message: string)
}
