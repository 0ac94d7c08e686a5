/** Responses of the API routes and the session check they share. */
module Http {
  import opened Common
  import opened Store

  /** The public fields `/api/me` selects from a user row. */
  datatype Profile = Profile(name: Option<string>, email: string, subscriptionStatus: Option<string>)

  /** Response bodies: `{ error }` and `{ message }` JSON, plain text, the
      location list or a created location, `{ user }`, `{ received: true }`, and
      the empty body of an unhandled exception. */
  datatype Body =
    | ErrorJson(error: string)
    | MessageJson(message: string)
    | Text(text: string)
    | LocationsJson(locations: seq<Location>)
    | LocationJson(location: Location)
    | UserJson(user: Option<Profile>)
    | ReceivedJson
    | ServerError

  datatype Response = Response(status: int, body: Body) {
    /** `Response.ok`: a status in the 200 range. */
    predicate Ok() {
      200 <= status <= 299
    }
  }

  /** What a handler answers and the store it leaves behind. */
  datatype Outcome = Outcome(response: Response, store: StoreState)

  /** The 500 Next.js sends when a handler throws (a Prisma update of a missing row). */
  const InternalError := Response(500, ServerError)

  /** `session?.user?.email` is truthy: the caller has a session with a non-empty email. */
  predicate SignedIn(sessionEmail: Option<string>) {
    Truthy(sessionEmail)
  }

  /** Whether `res.json()` can parse the body: plain text and the empty body
      of a 500 make it throw. */
  predicate IsJson(b: Body) {
    !b.Text? && !b.ServerError?
  }

  /** `data.error || fallback`. */
  function ErrorOr(b: Body, fallback: string): (r: string)
    ensures b.ErrorJson? && b.error != "" ==> r == b.error
    ensures !(b.ErrorJson? && b.error != "") ==> r == fallback
  {
    if b.ErrorJson? && b.error != "" then b.error else fallback
  }
}
