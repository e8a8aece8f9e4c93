/**
 * The server's authentication middleware (middleware/auth.js): the bearer token taken
 * from the Authorization header, its verification, and the role gate.
 *
 * JWT verification is the parameter `verify`, giving the decoded payload or nothing
 * when the token does not verify.
 */
module AuthMiddleware {
  import opened Wrappers
  import opened Text

  /** The payload the tokens are signed with: the user's id and role. */
  datatype Claims = Claims(userId: int, role: string)

  /** What a middleware does: call next() with req.user set, or answer the request. */
  datatype Decision = Next(user: Claims) | Reject(error: HttpError)

  /** `authHeader && authHeader.split(' ')[1]`, kept only when truthy. */
  function BearerToken(header: Option<string>): (r: Option<string>)
    ensures r.Some? ==> r.value != "" && ' ' !in r.value
    ensures header.None? || header == Some("") ==> r.None?
  {
    match header
    case None => None
    case Some(h) =>
      var parts := Split(h, ' ');
      SplitPiecesLackSeparator(h, ' ');
      if |parts| >= 2 && parts[1] != "" then Some(parts[1]) else None
  }

  /** authenticateToken: 401 without a token, 403 when it does not verify, otherwise
      next() with the decoded payload. */
  function AuthenticateToken(header: Option<string>, verify: string -> Option<Claims>): (r: Decision)
    ensures r.Next? <==> BearerToken(header).Some? && verify(BearerToken(header).value).Some?
    ensures r.Next? ==> r.user == verify(BearerToken(header).value).value
    ensures r.Reject? ==> (r.error.status == 401 <==> BearerToken(header).None?)
    ensures r.Reject? ==> r.error.status == 401 || r.error.status == 403
  {
    match BearerToken(header)
    case None => Reject(HttpError(401, "Access token vereist"))
    case Some(token) =>
      match verify(token)
      case None => Reject(HttpError(403, "Ongeldige of verlopen token"))
      case Some(user) => Next(user)
  }

  /** requireRole(roles): 401 when no user was set, 403 for a role not listed. */
  function RequireRole(roles: seq<string>, user: Option<Claims>): (r: Decision)
    ensures r.Next? <==> user.Some? && user.value.role in roles
    ensures r.Next? ==> r.user == user.value
    ensures r.Reject? ==> (r.error.status == 401 <==> user.None?)
    ensures r.Reject? ==> r.error.status == 401 || r.error.status == 403
  {
    match user
    case None => Reject(HttpError(401, "Niet geauthenticeerd"))
    case Some(u) => if u.role in roles then Next(u) else Reject(HttpError(403, "Onvoldoende rechten"))
  }

  /** `requireRole(...)` as the handler sees it: the error it answers with, if any. */
  function Gate(roles: seq<string>, requester: Claims): Option<HttpError> {
    var d := RequireRole(roles, Some(requester));
    if d.Reject? then Some(d.error) else None
  }

  /** A route behind both: reached exactly when the token verifies to a listed role. */
  function Guarded(header: Option<string>, verify: string -> Option<Claims>, roles: seq<string>): Decision {
    match AuthenticateToken(header, verify)
    case Reject(e) => Reject(e)
    case Next(user) => RequireRole(roles, Some(user))
  }

  lemma GuardedReachesHandler(header: Option<string>, verify: string -> Option<Claims>, roles: seq<string>)
    ensures var r := Guarded(header, verify, roles);
      && (r.Next? <==> (BearerToken(header).Some? && verify(BearerToken(header).value).Some?
                        && verify(BearerToken(header).value).value.role in roles))
      && (r.Reject? && r.error.status == 401 <==> BearerToken(header).None?)
  {
  }

  /** The header the client builds, `'Bearer ' + t`, gives `t` back whenever `t` is a
      non-empty token without spaces. */
  lemma BearerHeaderRoundTrip(t: string)
    requires t != "" && ' ' !in t
    ensures BearerToken(Some("Bearer " + t)) == Some(t)
  {
    var h := "Bearer " + t;
    assert h == "Bearer" + [' '] + t;
    SplitWithoutSeparator("Bearer", ' ');
    SplitWithoutSeparator(t, ' ');
    SplitAtFirstSeparator("Bearer", t, ' ');
  }

  /** With a space inside the token, only its first word survives. */
  lemma BearerTokenStopsAtSpace(a: string, b: string)
    requires a != "" && ' ' !in a
    ensures BearerToken(Some("Bearer " + a + " " + b)) == Some(a)
  {
    var h := "Bearer " + a + " " + b;
    assert h == "Bearer" + [' '] + (a + [' '] + b);
    SplitWithoutSeparator("Bearer", ' ');
    SplitAtFirstSeparator("Bearer", a + [' '] + b, ' ');
    SplitAtFirstSeparator(a, b, ' ');
  }
}
