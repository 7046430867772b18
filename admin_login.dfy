/** `POST /api/admin/login`: a ladder of checks over the users table that
    ends, only for an admin with the right password, in a two-hour admin
    session token set as the `adminToken` cookie. */
module AdminLogin {
  import opened Js
  import opened Credentials
  import opened RequireAdminPageGuard

  /** The outcomes of the admin login. The unknown-email and wrong-password
      cases are one constructor: the client cannot tell them apart. */
  datatype AdminLoginOutcome =
    | MissingCredentials
    | InvalidCredentials
    | AdminOnly
    | Session(adminToken: string)
  {
    function StatusCode(): nat {
      match this
      case MissingCredentials => 400
      case InvalidCredentials => 401
      case AdminOnly => 403
      case Session(_) => 200
    }

    function Error(): Option<string> {
      match this
      case MissingCredentials => Some("Email and password are required.")
      case InvalidCredentials => Some("Invalid credentials.")
      case AdminOnly => Some("Admin access only.")
      case Session(_) => None
    }
  }

  /** The admin login handler over the users table `users`. */
  function Login(ci: bool, users: seq<User>, jwt: Jwt, b: Bcrypt, email: Field, password: Field)
    : (r: AdminLoginOutcome)
    ensures r == MissingCredentials <==> !Truthy(email) || !Truthy(password)
    ensures r == InvalidCredentials <==>
      Truthy(email) && Truthy(password) &&
      (FindUser(ci, users, email.value) == |users| ||
       !b.compare(password.value, users[FindUser(ci, users, email.value)].password))
    ensures r == AdminOnly <==>
      Truthy(email) && Truthy(password) &&
      FindUser(ci, users, email.value) < |users| &&
      b.compare(password.value, users[FindUser(ci, users, email.value)].password) &&
      users[FindUser(ci, users, email.value)].role != Some("admin")
    ensures r.Session? ==>
      Truthy(email) && Truthy(password) &&
      var k := FindUser(ci, users, email.value);
      k < |users| && b.compare(password.value, users[k].password) &&
      users[k].role == Some("admin") && r.adminToken == jwt.sign(AdminClaims(users[k]))
  {
    if !Truthy(email) || !Truthy(password) then MissingCredentials
    else
      var k := FindUser(ci, users, email.value);
      if k == |users| then InvalidCredentials
      else
        var user := users[k];
        if !b.compare(password.value, user.password) then InvalidCredentials
        else if user.role != Some("admin") then AdminOnly
        else Session(jwt.sign(AdminClaims(user)))
  }

  /** An unknown email and a wrong password for a known one get the same
      401 response. */
  lemma FailuresAlike(ci: bool, users: seq<User>, jwt: Jwt, b: Bcrypt, unknown: string, known: string, password: string)
    requires unknown != "" && known != "" && password != ""
    requires FindUser(ci, users, unknown) == |users|
    requires FindUser(ci, users, known) < |users|
    requires !b.compare(password, users[FindUser(ci, users, known)].password)
    ensures Login(ci, users, jwt, b, Some(unknown), Some(password)) ==
            Login(ci, users, jwt, b, Some(known), Some(password))
    ensures Login(ci, users, jwt, b, Some(known), Some(password)).StatusCode() == 401
  {
  }

  /** The cookie set on success opens the admin pages, with the claims
      `{id, email, role}` of the admin who logged in. */
  lemma SessionOpensAdminPages(ci: bool, users: seq<User>, jwt: Jwt, b: Bcrypt,
                               email: Field, password: Field, authorization: Field)
    requires JwtSound(jwt)
    requires Login(ci, users, jwt, b, email, password).Session?
    ensures var k := FindUser(ci, users, email.value);
      RequireAdminPage(jwt, Request(authorization, Some(Login(ci, users, jwt, b, email, password).adminToken)))
        == Next(AdminClaims(users[k])) &&
      AdminClaims(users[k]).name.None? && AdminClaims(users[k]).expiry == TwoHours
  {
    var k := FindUser(ci, users, email.value);
    SignedCookie(jwt, AdminClaims(users[k]), authorization);
  }
}
