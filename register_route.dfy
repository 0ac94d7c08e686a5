/** `POST /api/register`: create a local account with a hashed password. */
module RegisterRoute {
  import opened Common
  import opened Store
  import opened Http

  /** The JSON body the registration form sends. */
  datatype RegisterRequest = RegisterRequest(email: string, password: string, name: Option<string>)

  const AlreadyExists := Response(400, ErrorJson("User already exists."))
  const Registered := Response(200, MessageJson("User registered successfully"))

  /** The answer and the store after one registration; `hash` stands for bcrypt's hash. */
  function Register(s: StoreState, req: RegisterRequest, hash: string -> string): (o: Outcome)
    ensures req.email in s.users ==> o == Outcome(AlreadyExists, s)
    ensures req.email !in s.users ==>
      && o.response == Registered
      && o.store.users.Keys == s.users.Keys + {req.email}
      && |o.store.users| == |s.users| + 1
      && (forall e :: e in s.users ==> o.store.users[e] == s.users[e])
      && o.store.locations == s.locations
    ensures req.email !in s.users ==>
      var u := o.store.users[req.email];
      && u.email == req.email && u.name == req.name
      && u.password == Some(hash(req.password))
      && !u.isExtAuth
      && u.subscriptionStatus.None? && u.stripeCustomerId.None?
    ensures Valid(s) ==> Valid(o.store)
  {
    if req.email in s.users then Outcome(AlreadyExists, s)
    else
      var r := InsertUser(s, req.email, req.name, Some(hash(req.password)), false);
      assert |r.users.Keys| == |s.users.Keys| + 1;
      Outcome(Registered, r)
  }

  /** The route handler over the live database. */
  method Post(db: Db, req: RegisterRequest, hash: string -> string) returns (resp: Response)
    modifies db
    ensures Outcome(resp, db.State()) == Register(old(db.State()), req, hash)
  {
    if req.email in db.users {
      return AlreadyExists;
    }
    var hashed := hash(req.password);
    var created := db.CreateUser(req.email, req.name, Some(hashed), false);
    resp := Registered;
  }

  /** Registering the same email a second time is refused and changes nothing,
      whatever the other fields of either request. */
  lemma RegisterTwiceRejected(s: StoreState, first: RegisterRequest, second: RegisterRequest, hash: string -> string)
    requires second.email == first.email
    ensures var o := Register(s, first, hash);
      Register(o.store, second, hash) == Outcome(AlreadyExists, o.store)
  {
  }
}
