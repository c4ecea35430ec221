/** The JSON envelope an HTTP error is answered with. */
module ErrorHandlers {
  import opened Exceptions

  /** werkzeug's table of reason phrases (the status texts of section 15 of
      RFC 9110), left abstract: a partial map from status code to phrase. */
  type ReasonPhrases = map<int, string>

  const UnknownError := "Unknown error"

  datatype ErrorReply = ErrorReply(status: int, payload: map<string, string>)

  /** The body of an error response: `error` is the reason phrase for the
      code, and `message` the description when there is one. */
  function ErrorPayload(e: HttpError, phrases: ReasonPhrases): (p: map<string, string>)
    ensures p.Keys == {"error"} + (if e.description != "" then {"message"} else {})
    ensures e.code in phrases ==> p["error"] == phrases[e.code]
    ensures e.code !in phrases ==> p["error"] == UnknownError
    ensures "message" in p ==> p["message"] == e.description
  {
    var payload := map["error" := if e.code in phrases then phrases[e.code] else UnknownError];
    if e.description != "" then payload["message" := e.description] else payload
  }

  /** `error_response(error)`: the envelope above, sent with the error's own code. */
  function ErrorResponse(e: HttpError, phrases: ReasonPhrases): (r: ErrorReply)
    ensures r.status == e.code
    ensures "message" in r.payload <==> e.description != ""
    ensures r.payload.Keys <= {"error", "message"}
  {
    ErrorReply(e.code, ErrorPayload(e, phrases))
  }

  /** Every error kind of the API answers 400 with its description as message. */
  lemma KindResponse(k: ErrorKind, phrases: ReasonPhrases)
    ensures ErrorResponse(Raise(k), phrases).status == 400
    ensures ErrorResponse(Raise(k), phrases).payload["message"] == Description(k)
  {
  }
}
