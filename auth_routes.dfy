/** The public account routes mounted at `/api/auth`: `/signup` inserts a
    user with a bcrypt hash of the password, `/login` looks the user up and
    issues a one-day token. */
module AuthRoutes {
  import opened Js
  import opened Db
  import opened Credentials
  import opened RequireAuthGuard
  import opened RequireAdminPageGuard

  datatype SignupOutcome = MissingFields | EmailExists | Registered {
    function StatusCode(): nat {
      if Registered? then 200 else 400
    }

    function Message(): string {
      match this
      case MissingFields => "All fields required"
      case EmailExists => "Email already exists"
      case Registered => "User registered successfully!"
    }
  }

  /** The `users` table with its UNIQUE email index. */
  class UserStore {
    /** Whether the email column compares case-insensitively. */
    const ci: bool
    /** The value the `role` column takes when an insert leaves it out. */
    const defaultRole: Option<string>
    var users: seq<User>
    var nextId: nat

    /** No two users share an email under the column's collation, and ids
        increase in insertion order below the next id. */
    ghost predicate Valid()
      reads this
    {
      (forall i, j :: 0 <= i < j < |users| ==> Key(ci, users[i].email) != Key(ci, users[j].email)) &&
      (forall i, j :: 0 <= i < j < |users| ==> users[i].id < users[j].id) &&
      (forall i :: 0 <= i < |users| ==> users[i].id < nextId)
    }

    constructor(ci: bool, defaultRole: Option<string>)
      ensures Valid()
      ensures this.ci == ci && this.defaultRole == defaultRole
      ensures users == [] && nextId == 1
    {
      this.ci := ci;
      this.defaultRole := defaultRole;
      users := [];
      nextId := 1;
    }

    /** `POST /api/auth/signup`, with `salt` the salt bcrypt draws. */
    method Signup(b: Bcrypt, name: Field, email: Field, phone: Field, locality: Field,
                  password: Field, salt: nat) returns (r: SignupOutcome)
      requires Valid()
      modifies this
      ensures Valid()
      ensures r == MissingFields <==> !Truthy(name) || !Truthy(email) || !Truthy(password)
      ensures r == EmailExists <==>
        Truthy(name) && Truthy(email) && Truthy(password) &&
        FindUser(ci, old(users), email.value) < |old(users)|
      ensures r != Registered ==> users == old(users) && nextId == old(nextId)
      ensures r == Registered ==>
        nextId == old(nextId) + 1 &&
        users == old(users) + [User(old(nextId), name.value, email.value, phone, locality,
                                    b.hash(password.value, salt), defaultRole)]
    {
      if !Truthy(name) || !Truthy(email) || !Truthy(password) {
        return MissingFields;
      }
      var hashed := b.hash(password.value, salt);
      if FindUser(ci, users, email.value) < |users| {
        return EmailExists;
      }
      users := users + [User(nextId, name.value, email.value, phone, locality, hashed, defaultRole)];
      nextId := nextId + 1;
      r := Registered;
    }
  }

  /** The outcomes of `POST /api/auth/login`. `Unhandled` is a known email
      sent without a password: `bcrypt.compare` rejects, inside a query
      callback nobody awaits, so no reply is sent and the promise rejection
      is unhandled, which by default ends the Node process. */
  datatype LoginOutcome =
    | UserNotFound
    | InvalidCredentials
    | Unhandled
    | LoggedIn(token: string, role: Option<string>, name: string, email: string)
  {
    function Error(): Option<string> {
      match this
      case UserNotFound => Some("User not found")
      case InvalidCredentials => Some("Invalid credentials")
      case Unhandled => None
      case LoggedIn(_, _, _, _) => None
    }
  }

  /** `POST /api/auth/login` over the users table `users`. */
  function Login(ci: bool, users: seq<User>, jwt: Jwt, b: Bcrypt, email: Field, password: Field)
    : (r: LoginOutcome)
    ensures r == UserNotFound <==> email.None? || FindUser(ci, users, email.value) == |users|
    ensures r == InvalidCredentials <==>
      email.Some? && FindUser(ci, users, email.value) < |users| && password.Some? &&
      !b.compare(password.value, users[FindUser(ci, users, email.value)].password)
    ensures r == Unhandled <==>
      email.Some? && FindUser(ci, users, email.value) < |users| && password.None?
    ensures r.LoggedIn? <==>
      email.Some? && FindUser(ci, users, email.value) < |users| && password.Some? &&
      b.compare(password.value, users[FindUser(ci, users, email.value)].password)
    ensures r.LoggedIn? ==>
      email.Some? && password.Some? &&
      var u := users[FindUser(ci, users, email.value)];
      b.compare(password.value, u.password) &&
      r.token == jwt.sign(LoginClaims(u)) && r.role == u.role && r.name == u.name && r.email == u.email
  {
    if email.None? then UserNotFound
    else
      var k := FindUser(ci, users, email.value);
      if k == |users| then UserNotFound
      else
        var user := users[k];
        if password.None? then Unhandled
        else if !b.compare(password.value, user.password) then InvalidCredentials
        else LoggedIn(jwt.sign(LoginClaims(user)), user.role, user.name, user.email)
  }

  /** As written, a known email with no password gets no answer: the
      rejected comparison escapes the route as an unhandled rejection. */
  lemma MissingPasswordUnhandled(ci: bool, users: seq<User>, jwt: Jwt, b: Bcrypt, u: User)
    requires FindUser(ci, users, u.email) == |users|
    ensures Login(ci, users + [u], jwt, b, Some(u.email), None) == Unhandled
  {
    FindUserAppend(ci, users, u, u.email);
  }

  /** `POST /api/auth/login` with the missing password refused as invalid
      credentials before bcrypt is called. */
  function CorrectedLogin(ci: bool, users: seq<User>, jwt: Jwt, b: Bcrypt, email: Field, password: Field)
    : (r: LoginOutcome)
    ensures r != Unhandled
    ensures password.Some? ==> r == Login(ci, users, jwt, b, email, password)
    ensures password.None? ==> r == UserNotFound || r == InvalidCredentials
  {
    var r := Login(ci, users, jwt, b, email, password);
    if r == Unhandled then InvalidCredentials else r
  }

  /** The two login failures answer with different messages. */
  lemma FailureMessagesDiffer()
    ensures UserNotFound.Error() != InvalidCredentials.Error()
  {
  }

  /** A user who signed up can log in with the same email and password,
      and the token carries `{id, email, name}` with a one-day expiry and no
      role, while the role goes back in the body. */
  lemma SignupThenLogin(ci: bool, users: seq<User>, jwt: Jwt, b: Bcrypt, u: User,
                        password: string, salt: nat)
    requires BcryptSound(b)
    requires FindUser(ci, users, u.email) == |users|
    requires u.password == b.hash(password, salt)
    ensures Login(ci, users + [u], jwt, b, Some(u.email), Some(password)) ==
      LoggedIn(jwt.sign(Claims(u.id, u.email, Some(u.name), None, OneDay)), u.role, u.name, u.email)
  {
    FindUserAppend(ci, users, u, u.email);
  }

  /** The login token carries no role: `requireAuth` lets it through, but
      the admin pages send it back to the admin login, even for an admin. */
  lemma LoginTokenReach(ci: bool, users: seq<User>, jwt: Jwt, b: Bcrypt, email: Field, password: Field)
    requires JwtSound(jwt)
    requires Login(ci, users, jwt, b, email, password).LoggedIn?
    ensures var r := Login(ci, users, jwt, b, email, password);
      var c := LoginClaims(users[FindUser(ci, users, email.value)]);
      RequireAuth(jwt, Request(Some("Bearer " + r.token), None)) == AuthOutcome.Next(c) &&
      RequireAdminPage(jwt, Request(None, Some(r.token))) == Redirect(LoginPage, false) &&
      RequireAdminApi(jwt, Request(Some("Bearer " + r.token), None)) == Forbidden
  {
    var c := LoginClaims(users[FindUser(ci, users, email.value)]);
    AnySignedTokenPasses(jwt, c, None);
    SignedCookie(jwt, c, None);
    RolelessTokenForbidden(jwt, c, None);
  }

  /** Sign up, sign up again with the same email, then log in: the second
      signup is refused and the login returns the stored role. */
  method SignupLoginScenario(jwt: Jwt, b: Bcrypt)
    returns (first: SignupOutcome, again: SignupOutcome, login: LoginOutcome)
    requires BcryptSound(b)
    ensures first == Registered && again == EmailExists
    ensures login.LoggedIn? && login.role == Some("user")
  {
    var store := new UserStore(false, Some("user"));
    var email := "a@b.co";
    first := store.Signup(b, Some("Asha"), Some(email), None, None, Some("pw"), 7);
    again := store.Signup(b, Some("Asha"), Some(email), None, None, Some("other"), 8);
    var u := store.users[0];
    SignupThenLogin(false, [], jwt, b, u, "pw", 7);
    assert [] + [u] == store.users;
    login := Login(false, store.users, jwt, b, Some(email), Some("pw"));
  }
}
