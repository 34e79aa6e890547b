/** Vocabulary shared by the route handlers: identities, request bodies,
    responses and JavaScript truthiness of the values the handlers test. */
module Http {
  import opened Wrappers

  /** A Clerk user id. The handlers test `!userId`, which is also true of
      the empty string, so an authenticated identity is a non-empty string
      and `None` stands for every falsy id (null, undefined, ""). */
  type UserId = s: string | s != "" witness "user"

  /** JavaScript `!!s` for a field that is either a string or absent. */
  predicate Truthy(s: Option<string>)
  {
    s.Some? && s.value != ""
  }

  /** A field checked with `!x` and then used as an identity. */
  function AsUserId(s: Option<string>): (r: Option<UserId>)
    ensures r.Some? <==> Truthy(s)
    ensures r.Some? ==> r.value == s.value
  {
    if Truthy(s) then Some(s.value) else None
  }

  /** What `await req.json()` produced: a parse failure throws. */
  datatype Body = Malformed | Json(prompt: Option<string>)

  /** An HTTP response: its status and, for a JSON reply, its payload.
      Plain-text messages are not modelled beyond the status they carry. */
  datatype Response<P> = Response(status: int, payload: Option<P>)

  const OK: int := 200
  const BAD_REQUEST: int := 400
  const UNAUTHORIZED: int := 401
  const PAYMENT_REQUIRED: int := 402
  const FORBIDDEN: int := 403
  const TOO_MANY_REQUESTS: int := 429
  const INTERNAL_ERROR: int := 500

  /** A response with a plain-text body, i.e. without JSON payload. */
  function Plain<P>(status: int): Response<P>
  {
    Response(status, None)
  }
}
