/** The guard of the browser admin pages: reads only the `adminToken`
    cookie, verifies it, requires the `admin` role, and otherwise redirects
    to the admin login page. */
module RequireAdminPageGuard {
  import opened Js
  import opened Credentials

  const LoginPage := "/admin-login"

  /** A redirect to `location`, clearing the `adminToken` cookie first when
      `clearCookie` holds, or `req.user := user` and one call of `next()`. */
  datatype PageOutcome = Redirect(location: string, clearCookie: bool) | Next(user: Claims)

  /** `requireAdminPage`. */
  function RequireAdminPage(jwt: Jwt, req: Request): (r: PageOutcome)
    ensures r.Next? <==>
      Truthy(req.adminToken) && jwt.verify(req.adminToken.value).Some? &&
      jwt.verify(req.adminToken.value).value.role == Some("admin")
    ensures r.Next? ==> jwt.verify(req.adminToken.value) == Some(r.user) && r.user.role == Some("admin")
    ensures r.Redirect? ==> r.location == LoginPage
    ensures r.Redirect? ==>
      (r.clearCookie <==> Truthy(req.adminToken) && jwt.verify(req.adminToken.value).None?)
  {
    var token := req.adminToken;
    if !Truthy(token) then Redirect(LoginPage, false)
    else match jwt.verify(token.value)
      case None => Redirect(LoginPage, true)
      case Some(decoded) =>
        if decoded.role != Some("admin") then Redirect(LoginPage, false) else Next(decoded)
  }

  /** The `Authorization` header plays no part in the decision. */
  lemma HeaderIgnored(jwt: Jwt, req: Request, authorization: Field)
    ensures RequireAdminPage(jwt, req.(authorization := authorization)) == RequireAdminPage(jwt, req)
  {
  }

  /** A signed token in the cookie opens the admin pages exactly when its
      claims carry the `admin` role; any other verified token redirects and
      leaves the cookie in place. */
  lemma SignedCookie(jwt: Jwt, c: Claims, authorization: Field)
    requires JwtSound(jwt)
    ensures c.role == Some("admin") ==>
      RequireAdminPage(jwt, Request(authorization, Some(jwt.sign(c)))) == Next(c)
    ensures c.role != Some("admin") ==>
      RequireAdminPage(jwt, Request(authorization, Some(jwt.sign(c)))) == Redirect(LoginPage, false)
  {
    assert jwt.verify(jwt.sign(c)) == Some(c) && jwt.sign(c) != "";
  }

  /** A missing cookie redirects without clearing anything, and so does a
      bearer header with no cookie, even one holding an admin token. */
  lemma NoCookieRedirects(jwt: Jwt, authorization: Field)
    ensures RequireAdminPage(jwt, Request(authorization, None)) == Redirect(LoginPage, false)
    ensures RequireAdminPage(jwt, Request(authorization, Some(""))) == Redirect(LoginPage, false)
  {
  }
}
