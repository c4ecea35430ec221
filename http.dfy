/** What a request comes to: a response the handler builds, or an HTTP error. */
module Http {
  import opened Values
  import opened Exceptions
  import opened Models

  /** The resource a `Location` header points at. */
  datatype Link = UserDetail(userId: int) | PostDetail(userId: int, postId: int)

  /** The JSON a handler sends back. A page of a collection is kept as the
      whole collection being paged plus the page parameters. */
  datatype Body =
    | Empty
    | UserJson(id: int, user: User)
    | PostJson(id: int, post: Post)
    | Collection(page: int, perPage: int, ids: set<int>)

  datatype Outcome =
      /** A response the handler returns itself. */
    | Respond(status: int, body: Body, location: Option<Link>)
      /** An error raised with werkzeug's standard text for the code: 401 from
          token authentication, 403 from an unfulfilled requirement, 404 from
          `get_or_404`, 500 from an uncaught Python error. */
    | Abort(code: int)
      /** A 400 whose description the API fixes. */
    | Fail(error: HttpError)

  /** What a requirement's `fulfill` gives: true, false, or an error it raised. */
  datatype Verdict = Fulfilled | Unfulfilled | Raised(error: HttpError)

  /** One request's outcome and the table it touches as committed afterwards. */
  datatype Step<T> = Step(outcome: Outcome, after: map<int, T>)
}
