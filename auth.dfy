/** The authentication options: the credentials provider's `authorize`, and the
    `signIn`, `jwt` and `session` callbacks. bcrypt's compare is a parameter;
    the Google identity arrives as the provider's user and account. */
module Auth {
  import opened Common
  import opened Store
  import RegisterRoute

  /** What the sign-in form submits; an empty string stands for a missing field
      (both are falsy to the checks below). */
  datatype Credentials = Credentials(email: string, password: string)

  /** The user object `authorize` hands to next-auth. */
  datatype AuthUser = AuthUser(id: nat, name: Option<string>, email: string, isExtAuth: bool)

  const MissingCredentials := "Missing credentials"
  const InvalidCredentials := "Invalid credentials or external user."
  const InvalidPassword := "Invalid password"
  const UseEmailPassword := "Use email/password to login."

  /** A stored user that may log in with a password: it has a non-empty
      password hash and was not created through Google. */
  predicate HasLocalPassword(u: User) {
    Truthy(u.password) && !u.isExtAuth
  }

  /** Credentials are present with a non-empty email and password. */
  predicate Supplied(c: Option<Credentials>) {
    c.Some? && c.value.email != "" && c.value.password != ""
  }

  /** The credentials provider's decision; `compare(plain, hash)` stands for bcrypt's compare. */
  function Authorize(s: StoreState, credentials: Option<Credentials>, compare: (string, string) -> bool): (r: Result<AuthUser, string>)
    ensures !Supplied(credentials) ==> r == Failure(MissingCredentials)
    ensures Supplied(credentials) && (credentials.value.email !in s.users || !HasLocalPassword(s.users[credentials.value.email])) ==>
              r == Failure(InvalidCredentials)
    ensures r.Success? <==>
              && Supplied(credentials)
              && credentials.value.email in s.users
              && HasLocalPassword(s.users[credentials.value.email])
              && compare(credentials.value.password, s.users[credentials.value.email].password.value)
    ensures r.Success? ==>
              var u := s.users[credentials.value.email];
              r.value == AuthUser(u.id, u.name, u.email, false)
  {
    if !Supplied(credentials) then Failure(MissingCredentials)
    else
      var c := credentials.value;
      match FindUser(s, c.email)
      case None => Failure(InvalidCredentials)
      case Some(u) =>
        if !Truthy(u.password) || u.isExtAuth then Failure(InvalidCredentials)
        else if !compare(c.password, u.password.value) then Failure(InvalidPassword)
        else Success(AuthUser(u.id, u.name, u.email, false))
  }

  /** A freshly registered account can log in with the password it registered
      with, provided bcrypt's compare accepts a password against its own hash. */
  lemma RegisterThenAuthorize(s: StoreState, req: RegisterRoute.RegisterRequest,
                              hash: string -> string, compare: (string, string) -> bool)
    requires Valid(s) && req.email !in s.users
    requires req.email != "" && req.password != "" && hash(req.password) != ""
    requires compare(req.password, hash(req.password))
    ensures var o := RegisterRoute.Register(s, req, hash);
      Authorize(o.store, Some(Credentials(req.email, req.password)), compare)
        == Success(AuthUser(s.nextUserId, req.name, req.email, false))
  {
    var o := RegisterRoute.Register(s, req, hash);
    assert o.store.users[req.email].id == s.nextUserId by {
      assert o.store == InsertUser(s, req.email, req.name, Some(hash(req.password)), false);
    }
  }

  /** The provider account next-auth passes to the callbacks. */
  datatype Account = Account(provider: string)

  predicate IsGoogle(account: Option<Account>) {
    account.Some? && account.value.provider == "google"
  }

  /** The Google profile's user (`user.email!` asserts the email is there). */
  datatype ProviderUser = ProviderUser(email: string, name: Option<string>)

  datatype SignInOutcome = SignInOutcome(result: Result<bool, string>, store: StoreState)

  /** The `signIn` callback: a Google sign-in provisions an external account for
      an unknown email and is refused for an email registered with a password. */
  function SignInResult(s: StoreState, user: ProviderUser, account: Option<Account>): (o: SignInOutcome)
    ensures !IsGoogle(account) ==> o == SignInOutcome(Success(true), s)
    ensures IsGoogle(account) && user.email !in s.users ==>
              && o.result == Success(true)
              && o.store.users.Keys == s.users.Keys + {user.email}
              && (forall e :: e in s.users ==> o.store.users[e] == s.users[e])
              && o.store.users[user.email] == NewUser(s, user.email, user.name, None, true)
              && o.store.locations == s.locations
    ensures IsGoogle(account) && user.email in s.users && !s.users[user.email].isExtAuth ==>
              o == SignInOutcome(Failure(UseEmailPassword), s)
    ensures IsGoogle(account) && user.email in s.users && s.users[user.email].isExtAuth ==>
              o == SignInOutcome(Success(true), s)
    ensures Valid(s) ==> Valid(o.store)
  {
    if !IsGoogle(account) then SignInOutcome(Success(true), s)
    else
      match FindUser(s, user.email)
      case None => SignInOutcome(Success(true), InsertUser(s, user.email, user.name, None, true))
      case Some(existing) =>
        if !existing.isExtAuth then SignInOutcome(Failure(UseEmailPassword), s)
        else SignInOutcome(Success(true), s)
  }

  /** The callback over the live database, in the source's order: look up,
      create when absent, then refuse an existing local account. */
  method SignIn(db: Db, user: ProviderUser, account: Option<Account>) returns (r: Result<bool, string>)
    modifies db
    ensures SignInOutcome(r, db.State()) == SignInResult(old(db.State()), user, account)
  {
    if IsGoogle(account) {
      var existing := FindUser(db.State(), user.email);
      if existing.None? {
        var created := db.CreateUser(user.email, user.name, None, true);
      }
      if existing.Some? && !existing.value.isExtAuth {
        return Failure(UseEmailPassword);
      }
    }
    r := Success(true);
  }

  /** A second Google sign-in of the same person succeeds and changes nothing. */
  lemma GoogleSignInIdempotent(s: StoreState, user: ProviderUser, account: Option<Account>)
    requires IsGoogle(account)
    requires user.email !in s.users || s.users[user.email].isExtAuth
    ensures var o := SignInResult(s, user, account);
      SignInResult(o.store, user, account) == SignInOutcome(Success(true), o.store)
  {
  }

  /** An account provisioned by Google sign-in can never pass `authorize`. */
  lemma GoogleAccountCannotAuthorize(s: StoreState, user: ProviderUser, account: Option<Account>,
                                     password: string, compare: (string, string) -> bool)
    requires IsGoogle(account) && user.email !in s.users && user.email != "" && password != ""
    ensures var o := SignInResult(s, user, account);
      Authorize(o.store, Some(Credentials(user.email, password)), compare) == Failure(InvalidCredentials)
  {
  }

  /** After a password registration, Google sign-in for that email is refused. */
  lemma RegisteredEmailRefusesGoogle(s: StoreState, req: RegisterRoute.RegisterRequest, hash: string -> string,
                                     user: ProviderUser, account: Option<Account>)
    requires IsGoogle(account) && user.email == req.email && req.email !in s.users
    ensures var o := RegisterRoute.Register(s, req, hash);
      SignInResult(o.store, user, account) == SignInOutcome(Failure(UseEmailPassword), o.store)
  {
  }

  /** The claims of a JSON web token that the callbacks read or write. */
  datatype TokenClaims = TokenClaims(name: Option<string>, email: string, isExtAuth: Option<bool>, id: Option<nat>)

  /** The `user` argument of the `jwt` callback: `authorize`'s result on a
      credentials login (isExtAuth false) or the provider's profile user. */
  datatype JwtUser = JwtUser(id: Option<nat>, isExtAuth: Option<bool>)

  function JwtUserOf(u: AuthUser): JwtUser {
    JwtUser(Some(u.id), Some(u.isExtAuth))
  }

  /** The claims after the `jwt` callback: the external-auth flag from the
      provider or from `authorize`'s user, the user id when one is given, and
      nothing else changed. */
  function JwtClaims(t: TokenClaims, account: Option<Account>, user: Option<JwtUser>): (r: TokenClaims)
    ensures r.name == t.name && r.email == t.email
    ensures IsGoogle(account) ==> r.isExtAuth == Some(true)
    ensures !IsGoogle(account) && user.Some? && user.value.isExtAuth == Some(false) ==> r.isExtAuth == Some(false)
    ensures !IsGoogle(account) && !(user.Some? && user.value.isExtAuth == Some(false)) ==> r.isExtAuth == t.isExtAuth
    ensures user.Some? && user.value.id.Some? ==> r.id == user.value.id
    ensures !(user.Some? && user.value.id.Some?) ==> r.id == t.id
  {
    var t1 :=
      if IsGoogle(account) then t.(isExtAuth := Some(true))
      else if user.Some? && user.value.isExtAuth == Some(false) then t.(isExtAuth := Some(false))
      else t;
    if user.Some? && user.value.id.Some? then t1.(id := user.value.id) else t1
  }

  /** Running the callback again with the same arguments changes nothing more. */
  lemma JwtIdempotent(t: TokenClaims, account: Option<Account>, user: Option<JwtUser>)
    ensures JwtClaims(JwtClaims(t, account, user), account, user) == JwtClaims(t, account, user)
  {
  }

  /** A successful credentials login yields a token marked as a local account
      and carrying the stored user's id. */
  lemma CredentialsLoginToken(s: StoreState, credentials: Option<Credentials>, compare: (string, string) -> bool,
                              t: TokenClaims, account: Option<Account>)
    requires !IsGoogle(account)
    requires Authorize(s, credentials, compare).Success?
    ensures var r := JwtClaims(t, account, Some(JwtUserOf(Authorize(s, credentials, compare).value)));
      r.isExtAuth == Some(false) && r.id == Some(s.users[credentials.value.email].id)
  {
  }

  /** The token object the `jwt` callback mutates and returns. */
  class Token {
    var name: Option<string>
    var email: string
    var isExtAuth: Option<bool>
    var id: Option<nat>

    function Claims(): TokenClaims
      reads this
    {
      TokenClaims(name, email, isExtAuth, id)
    }

    constructor (claims: TokenClaims)
      ensures Claims() == claims
    {
      name, email, isExtAuth, id := claims.name, claims.email, claims.isExtAuth, claims.id;
    }
  }

  /** The `jwt` callback: assigns the token's fields in place and returns the same token. */
  method Jwt(token: Token, account: Option<Account>, user: Option<JwtUser>) returns (r: Token)
    modifies token
    ensures r == token
    ensures token.Claims() == JwtClaims(old(token.Claims()), account, user)
  {
    if IsGoogle(account) {
      token.isExtAuth := Some(true);
    } else if user.Some? && user.value.isExtAuth == Some(false) {
      token.isExtAuth := Some(false);
    }
    if user.Some? && user.value.id.Some? {
      token.id := user.value.id;
    }
    r := token;
  }

  /** `value || null` for a stored string. */
  function OrNull(v: Option<string>): (r: Option<string>)
    ensures Truthy(v) ==> r == v
    ensures !Truthy(v) ==> r.None?
  {
    if Truthy(v) then v else None
  }

  /** The fields of `session.user` the `session` callback writes. */
  datatype SessionUserData = SessionUserData(
    name: Option<string>,
    email: Option<string>,
    isExtAuth: Option<bool>,
    stripeCustomerId: Option<string>,
    subscriptionStatus: Option<string>)

  /** The session user after the callback: identity from the token, billing
      fields from the row with the token's email, or null. */
  function SessionData(t: TokenClaims, s: StoreState): (r: SessionUserData)
    ensures r.name == t.name && r.email == Some(t.email) && r.isExtAuth == t.isExtAuth
    ensures t.email !in s.users ==> r.stripeCustomerId.None? && r.subscriptionStatus.None?
    ensures t.email in s.users ==>
              && r.stripeCustomerId == OrNull(s.users[t.email].stripeCustomerId)
              && r.subscriptionStatus == OrNull(s.users[t.email].subscriptionStatus)
  {
    var dbUser := FindUser(s, t.email);
    SessionUserData(
      t.name, Some(t.email), t.isExtAuth,
      if dbUser.Some? then OrNull(dbUser.value.stripeCustomerId) else None,
      if dbUser.Some? then OrNull(dbUser.value.subscriptionStatus) else None)
  }

  class SessionUser {
    var name: Option<string>
    var email: Option<string>
    var isExtAuth: Option<bool>
    var stripeCustomerId: Option<string>
    var subscriptionStatus: Option<string>

    function Data(): SessionUserData
      reads this
    {
      SessionUserData(name, email, isExtAuth, stripeCustomerId, subscriptionStatus)
    }

    constructor (d: SessionUserData)
      ensures Data() == d
    {
      name, email, isExtAuth := d.name, d.email, d.isExtAuth;
      stripeCustomerId, subscriptionStatus := d.stripeCustomerId, d.subscriptionStatus;
    }
  }

  /** The session object; `user` may be absent. */
  class AuthSession {
    var user: SessionUser?

    constructor (user: SessionUser?)
      ensures this.user == user
    {
      this.user := user;
    }
  }

  /** The `session` callback: fills `session.user` in place when there is one. */
  method Session(session: AuthSession, token: Token, db: Db) returns (r: AuthSession)
    modifies session.user
    ensures r == session && session.user == old(session.user)
    ensures session.user != null ==> session.user.Data() == SessionData(token.Claims(), db.State())
  {
    var user := session.user;
    if user != null {
      user.name := token.name;
      user.email := Some(token.email);
      user.isExtAuth := token.isExtAuth;
      var dbUser := FindUser(db.State(), token.email);
      user.stripeCustomerId := if dbUser.Some? then OrNull(dbUser.value.stripeCustomerId) else None;
      user.subscriptionStatus := if dbUser.Some? then OrNull(dbUser.value.subscriptionStatus) else None;
    }
    r := session;
  }
}
