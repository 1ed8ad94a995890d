/** The bearer-token check of `src/core/fastapi/dependencies/auth.py`. */
module Auth {
  import opened Outcomes

  /** FastAPI's `HTTPException`, by status code and detail. */
  datatype HttpException = HttpException(statusCode: int, detail: string)

  const Unauthorized := HttpException(401, "Unauthorized")

  /** `authenticate_user`: `None` when the request may proceed (the
      coroutine returns without a value), otherwise the exception it
      raises. `token` is the credential the request presented and
      `bearer` the configured secret. */
  function AuthenticateUser(token: string, bearer: string): (r: Option<HttpException>)
    ensures r.None? <==> token != [] && token == bearer
    ensures r.Some? ==> r.value == Unauthorized
  {
    if token == [] || token != bearer then Some(Unauthorized) else None
  }

  /** The emptiness test comes first: with an empty configured secret, an
      empty token is still refused. */
  lemma EmptyTokenAlwaysRefused(bearer: string)
    ensures AuthenticateUser([], bearer) == Some(Unauthorized)
  {
  }
}
