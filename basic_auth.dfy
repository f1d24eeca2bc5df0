/**
 * The basic-auth middleware of Custom_RoundTrippers_Middlewares/.../server.
 * The result of `Request.BasicAuth` (user, password, and whether the header
 * held Basic credentials at all) is an input: its header parsing belongs to
 * net/http.
 */
module BasicAuth {
  import opened Http

  datatype Credentials = Credentials(username: string, password: string)

  /** What the middleware does with one request. */
  datatype Decision =
      // http.Error is written and the inner handler is not called
    | Reject(response: Response)
      // the inner handler serves the request; the middleware writes nothing
    | Delegate

  /** Only an exact match of both the username and the password gets through; anything else is 401 "Unauthorized". */
  function BasicAuthMiddleware(auth: Credentials, user: string, pass: string, ok: bool): (d: Decision)
    ensures d == Delegate <==> ok && user == auth.username && pass == auth.password
    ensures d.Reject? ==> d.response == PlainError("Unauthorized", StatusUnauthorized)
  {
    if !ok || user != auth.username || pass != auth.password then
      Reject(PlainError("Unauthorized", StatusUnauthorized))
    else
      Delegate
  }
}
