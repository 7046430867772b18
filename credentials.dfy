/** What the authentication code calls into and reads: JSON Web Tokens
    (RFC 7519) signed with the server secret, bcrypt password hashes, the
    users table, and the two places a request can carry a token. */
module Credentials {
  import opened Js
  import opened Db

  /** The `expiresIn` option given to `jwt.sign`. */
  datatype Expiry = TwoHours | OneDay

  /** A token payload as `jwt.verify` hands it back. An absent `name` or
      `role` is a claim the signer did not include. */
  datatype Claims = Claims(
    id: nat,
    email: string,
    name: Option<string>,
    role: Option<string>,
    expiry: Expiry)

  /** `jwt.sign(payload, secret, { expiresIn })` and `jwt.verify(token,
      secret)` under the one server secret; `verify` gives `None` where it
      throws (bad signature, malformed or expired token). */
  datatype Jwt = Jwt(sign: Claims -> string, verify: string -> Option<Claims>)

  /** What the handlers rely on from the token library: a freshly signed
      token is a non-empty, space-free string that verifies to its claims. */
  ghost predicate JwtSound(jwt: Jwt) {
    forall c :: jwt.sign(c) != "" && ' ' !in jwt.sign(c) && jwt.verify(jwt.sign(c)) == Some(c)
  }

  /** `bcrypt.hash(password, 10)` with the salt it draws, and
      `bcrypt.compare(password, hash)`. */
  datatype Bcrypt = Bcrypt(hash: (string, nat) -> string, compare: (string, string) -> bool)

  /** A password always matches a hash made from it. */
  ghost predicate BcryptSound(b: Bcrypt) {
    forall p, salt :: b.compare(p, b.hash(p, salt))
  }

  /** A row of the `users` table; `password` holds the bcrypt hash and
      `role` whatever the column holds (signup does not set it). */
  datatype User = User(
    id: nat,
    name: string,
    email: string,
    phone: Option<string>,
    locality: Option<string>,
    password: string,
    role: Option<string>)

  /** The row `SELECT * FROM users WHERE email = ?` puts first, as an index,
      or `|users|` when the result is empty. */
  function FindUser(ci: bool, users: seq<User>, email: string): (k: nat)
    ensures k <= |users|
    ensures k < |users| ==> Key(ci, users[k].email) == Key(ci, email)
    ensures forall i :: 0 <= i < k ==> Key(ci, users[i].email) != Key(ci, email)
  {
    if users == [] then 0
    else if Key(ci, users[0].email) == Key(ci, email) then 0
    else 1 + FindUser(ci, users[1..], email)
  }

  /** Appending a user with a new email leaves every earlier lookup as it
      was and makes the new email find the new row. */
  lemma {:induction false} FindUserAppend(ci: bool, users: seq<User>, u: User, email: string)
    requires FindUser(ci, users, u.email) == |users|
    ensures FindUser(ci, users + [u], u.email) == |users|
    ensures FindUser(ci, users, email) < |users| ==>
      FindUser(ci, users + [u], email) == FindUser(ci, users, email)
  {
    if users != [] {
      assert (users + [u])[1..] == users[1..] + [u];
      FindUserAppend(ci, users[1..], u, email);
    }
  }

  /** The parts of a request the guards read: the `Authorization` header and
      the `adminToken` cookie. */
  datatype Request = Request(authorization: Field, adminToken: Field)

  /** The claims of the admin session token issued by the admin login. */
  function AdminClaims(u: User): Claims {
    Claims(u.id, u.email, None, u.role, TwoHours)
  }

  /** The claims of the token issued by `POST /api/auth/login`. */
  function LoginClaims(u: User): Claims {
    Claims(u.id, u.email, Some(u.name), None, OneDay)
  }
}
