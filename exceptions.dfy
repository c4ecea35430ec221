/** The API's own error kinds. Each is a subclass of werkzeug's BadRequest
    that fixes only the description, so each carries status 400. */
module Exceptions {

  /** An HTTP error as werkzeug's HTTPException carries it. */
  datatype HttpError = HttpError(code: int, description: string)

  datatype ErrorKind =
    | PostRequiredFieldsIsMissed
    | UserIdFieldIsMissed
    | UsernameAlreadyUsed
    | EmailAddressAlreadyUsed
    | UserRequiredFieldsIsMissed

  function Description(k: ErrorKind): string {
    match k
    case PostRequiredFieldsIsMissed => "must include post_body and user_id fields"
    case UserIdFieldIsMissed => "must include user_id field"
    case UsernameAlreadyUsed => "please use a different username"
    case EmailAddressAlreadyUsed => "please use a different email address"
    case UserRequiredFieldsIsMissed => "must include username, email and password fields"
  }

  /** A 400 carrying the given description: what `bad_request(message)`
      and `abort(400, message)` produce. */
  function BadRequest(message: string): HttpError {
    HttpError(400, message)
  }

  /** The error raised by `raise <kind>`. */
  function Raise(k: ErrorKind): (e: HttpError)
    ensures e.code == 400
    ensures e.description != ""
    ensures e == BadRequest(Description(k))
  {
    HttpError(400, Description(k))
  }

  /** No two kinds share a description, so a response body tells them apart. */
  lemma DescriptionsDistinct(k1: ErrorKind, k2: ErrorKind)
    ensures k1 != k2 ==> Description(k1) != Description(k2)
    ensures k1 != k2 ==> Raise(k1) != Raise(k2)
  {
  }
}
