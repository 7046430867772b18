/** The API guard: takes a token from the `Authorization` header or else
    from the `adminToken` cookie, verifies it, and either rejects the
    request with 401 or hands the verified claims to the next handler. */
module RequireAuthGuard {
  import opened Js
  import opened Credentials

  /** `req.headers.authorization?.split(' ')[1]`: the second space-separated
      piece of the header, absent when the header is or has no space. */
  function BearerToken(authorization: Field): (t: Field)
    ensures authorization.None? ==> t.None?
    ensures authorization.Some? ==> (t.Some? <==> ' ' in authorization.value)
  {
    match authorization
    case None => None
    case Some(h) =>
      SplitSecond(h, ' ');
      var pieces := Split(h, ' ');
      if |pieces| >= 2 then Some(pieces[1]) else None
  }

  /** `header || cookie`. */
  function SelectToken(req: Request): Field {
    var header := BearerToken(req.authorization);
    if Truthy(header) then header else req.adminToken
  }

  /** What the guard does with a request: answer 401 with `error`, or set
      `req.user` to `user` and call `next()` once. */
  datatype AuthOutcome = Unauthorized(error: string) | Next(user: Claims)

  /** `requireAuth`. The request proceeds exactly when a token was found and
      verifies, and then with the verified claims; no role is looked at. */
  function RequireAuth(jwt: Jwt, req: Request): (r: AuthOutcome)
    ensures r.Next? <==> Truthy(SelectToken(req)) && jwt.verify(SelectToken(req).value).Some?
    ensures r.Next? ==> jwt.verify(SelectToken(req).value) == Some(r.user)
    ensures r == Unauthorized("Unauthorized") <==> !Truthy(SelectToken(req))
    ensures r == Unauthorized("Invalid or expired token") <==>
      Truthy(SelectToken(req)) && jwt.verify(SelectToken(req).value).None?
  {
    var token := SelectToken(req);
    if !Truthy(token) then Unauthorized("Unauthorized")
    else match jwt.verify(token.value)
      case None => Unauthorized("Invalid or expired token")
      case Some(claims) => Next(claims)
  }

  lemma NoSpace(s: string)
    requires ' ' !in s
    ensures IndexOf(s, ' ') == |s|
  {
  }

  /** `Authorization: <scheme> <token>` yields the token. */
  lemma BearerOf(scheme: string, token: string)
    requires ' ' !in scheme && ' ' !in token
    ensures BearerToken(Some(scheme + " " + token)) == Some(token)
  {
    var h := scheme + " " + token;
    assert h[|scheme|] == ' ';
    assert forall i :: 0 <= i < |scheme| ==> h[i] == scheme[i];
    assert IndexOf(h, ' ') == |scheme|;
    assert h[|scheme| + 1..] == token;
    NoSpace(token);
    SplitSecond(h, ' ');
  }

  /** A non-empty bearer token wins over the cookie, whatever the cookie holds. */
  lemma HeaderWins(scheme: string, token: string, cookie: Field)
    requires ' ' !in scheme && ' ' !in token && token != ""
    ensures SelectToken(Request(Some(scheme + " " + token), cookie)) == Some(token)
  {
    BearerOf(scheme, token);
  }

  /** Without a usable bearer token the cookie is used: a missing header, a
      header with no space, and `Bearer ` with an empty second piece. */
  lemma CookieFallback(authorization: Field, cookie: Field)
    requires authorization.None? || ' ' !in authorization.value || authorization == Some("Bearer ")
    ensures SelectToken(Request(authorization, cookie)) == cookie
  {
    if authorization == Some("Bearer ") {
      BearerOf("Bearer", "");
    }
  }

  /** Any token the server signed lets the request through with its claims,
      from the header or from the cookie, whether or not the claims carry a
      role. */
  lemma AnySignedTokenPasses(jwt: Jwt, c: Claims, cookie: Field)
    requires JwtSound(jwt)
    ensures RequireAuth(jwt, Request(Some("Bearer " + jwt.sign(c)), cookie)) == Next(c)
    ensures RequireAuth(jwt, Request(None, Some(jwt.sign(c)))) == Next(c)
  {
    HeaderWins("Bearer", jwt.sign(c), cookie);
  }

  /** A request with neither a bearer token nor a cookie is refused before
      any verification. */
  lemma NoTokenRefused(jwt: Jwt, authorization: Field)
    requires authorization.None? || ' ' !in authorization.value
    ensures RequireAuth(jwt, Request(authorization, None)) == Unauthorized("Unauthorized")
  {
    CookieFallback(authorization, None);
  }

  /** What an admin API guard that also checks the role decides: 401 as
      `requireAuth` does, 403 for a verified token whose role is not
      `admin`, otherwise the next handler with the claims. */
  datatype AdminApiOutcome = Refused(error: string) | Forbidden | Admitted(user: Claims)

  /** The admin API guard with the role check of the admin pages added. */
  function RequireAdminApi(jwt: Jwt, req: Request): (r: AdminApiOutcome)
    ensures r.Admitted? <==> RequireAuth(jwt, req).Next? && RequireAuth(jwt, req).user.role == Some("admin")
    ensures r.Admitted? ==> r.user == RequireAuth(jwt, req).user
    ensures r.Forbidden? <==> RequireAuth(jwt, req).Next? && RequireAuth(jwt, req).user.role != Some("admin")
    ensures r.Refused? <==> RequireAuth(jwt, req).Unauthorized?
  {
    match RequireAuth(jwt, req)
    case Unauthorized(error) => Refused(error)
    case Next(claims) => if claims.role == Some("admin") then Admitted(claims) else Forbidden
  }

  /** With the role check, a token whose claims carry no role is turned away
      however it reaches the guard, and so is every role but `admin`. */
  lemma RolelessTokenForbidden(jwt: Jwt, c: Claims, cookie: Field)
    requires JwtSound(jwt) && c.role != Some("admin")
    ensures RequireAdminApi(jwt, Request(Some("Bearer " + jwt.sign(c)), cookie)) == Forbidden
    ensures RequireAdminApi(jwt, Request(None, Some(jwt.sign(c)))) == Forbidden
  {
    AnySignedTokenPasses(jwt, c, cookie);
  }
}
