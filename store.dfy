/** The persisted state behind the API routes: the User and Location tables, as
    a value (`StoreState`) for specifications and as a mutable object (`Db`)
    whose methods are the create/update calls the route handlers make. */
module Store {
  import opened Common

  /** A row of the User table. `password` holds a bcrypt hash and is absent for
      accounts created through Google; `subscriptionStatus` is one of the
      strings the routes write ("INACTIVE", "FREE", "ACTIVE") or absent. */
  datatype User = User(
    id: nat,
    email: string,
    name: Option<string>,
    password: Option<string>,
    isExtAuth: bool,
    subscriptionStatus: Option<string>,
    stripeCustomerId: Option<string>)

  /** A row of the Location table, owned by the user whose id is `userId`. */
  datatype Location = Location(id: nat, city: string, country: string, userId: nat, isPrimary: bool)

  /** Both tables, keyed as the routes look them up (users by their unique
      email), with the next fresh ids. */
  datatype StoreState = StoreState(
    users: map<string, User>,
    locations: seq<Location>,
    nextUserId: nat,
    nextLocationId: nat)

  const Empty := StoreState(map[], [], 0, 0)

  predicate HasUserId(s: StoreState, id: nat) {
    exists e :: e in s.users && s.users[e].id == id
  }

  /** The database constraints: each user is stored under its own email (so an
      email names at most one user), user and location ids are distinct and
      below the next fresh id, and every location's owner exists. */
  ghost predicate Valid(s: StoreState) {
    && (forall e :: e in s.users ==> s.users[e].email == e && s.users[e].id < s.nextUserId)
    && (forall e1, e2 :: e1 in s.users && e2 in s.users && s.users[e1].id == s.users[e2].id ==> e1 == e2)
    && (forall i :: 0 <= i < |s.locations| ==>
          s.locations[i].id < s.nextLocationId && HasUserId(s, s.locations[i].userId))
    && (forall i, j :: 0 <= i < j < |s.locations| ==> s.locations[i].id != s.locations[j].id)
  }

  lemma EmptyValid()
    ensures Valid(Empty)
  {
  }

  /** `prisma.user.findUnique({ where: { email } })`. */
  function FindUser(s: StoreState, email: string): (r: Option<User>)
    ensures r.Some? <==> email in s.users
    ensures r.Some? ==> r.value == s.users[email] && (Valid(s) ==> r.value.email == email)
  {
    if email in s.users then Some(s.users[email]) else None
  }

  /** The row `prisma.user.create` inserts: a fresh id, no status and no customer id. */
  function NewUser(s: StoreState, email: string, name: Option<string>, password: Option<string>, isExtAuth: bool): User {
    User(s.nextUserId, email, name, password, isExtAuth, None, None)
  }

  /** `prisma.user.create`: adds one user under a fresh id; every existing row is kept. */
  function InsertUser(s: StoreState, email: string, name: Option<string>, password: Option<string>, isExtAuth: bool): (r: StoreState)
    requires email !in s.users
    ensures r.users.Keys == s.users.Keys + {email}
    ensures forall e :: e in s.users ==> r.users[e] == s.users[e]
    ensures r.users[email] == NewUser(s, email, name, password, isExtAuth)
    ensures r.locations == s.locations && r.nextLocationId == s.nextLocationId
    ensures Valid(s) ==> Valid(r)
  {
    var r := s.(users := s.users[email := NewUser(s, email, name, password, isExtAuth)], nextUserId := s.nextUserId + 1);
    assert Valid(s) ==> Valid(r) by {
      if Valid(s) {
        forall i | 0 <= i < |r.locations| ensures HasUserId(r, r.locations[i].userId) {
          assert HasUserId(s, s.locations[i].userId);
          var e :| e in s.users && s.users[e].id == s.locations[i].userId;
          assert r.users[e] == s.users[e];
        }
      }
    }
    r
  }

  /** The `data` of a `prisma.user.update`: a field given as `Some(v)` is set to
      `v`, a field given as `None` is left as it is. */
  datatype UserPatch = UserPatch(subscriptionStatus: Option<Option<string>>, stripeCustomerId: Option<Option<string>>)

  function ApplyPatch(u: User, p: UserPatch): (r: User)
    ensures r.id == u.id && r.email == u.email && r.name == u.name
    ensures r.password == u.password && r.isExtAuth == u.isExtAuth
    ensures r.subscriptionStatus == (if p.subscriptionStatus.Some? then p.subscriptionStatus.value else u.subscriptionStatus)
    ensures r.stripeCustomerId == (if p.stripeCustomerId.Some? then p.stripeCustomerId.value else u.stripeCustomerId)
  {
    var u1 := if p.subscriptionStatus.Some? then u.(subscriptionStatus := p.subscriptionStatus.value) else u;
    if p.stripeCustomerId.Some? then u1.(stripeCustomerId := p.stripeCustomerId.value) else u1
  }

  /** Patching twice with the same data is patching once. */
  lemma ApplyPatchIdempotent(u: User, p: UserPatch)
    ensures ApplyPatch(ApplyPatch(u, p), p) == ApplyPatch(u, p)
  {
  }

  /** `prisma.user.update({ where: { email }, data })`: `None` when no row has
      that email (Prisma throws); otherwise only that row changes, and only in
      the patched fields. */
  function UpdateUser(s: StoreState, email: string, p: UserPatch): (r: Option<StoreState>)
    ensures r.Some? <==> email in s.users
    ensures r.Some? ==> r.value.users == s.users[email := ApplyPatch(s.users[email], p)]
    ensures r.Some? ==> r.value.locations == s.locations
    ensures r.Some? ==> r.value.nextUserId == s.nextUserId && r.value.nextLocationId == s.nextLocationId
    ensures r.Some? && Valid(s) ==> Valid(r.value)
  {
    if email !in s.users then None
    else
      var r := s.(users := s.users[email := ApplyPatch(s.users[email], p)]);
      assert Valid(s) ==> Valid(r) by {
        if Valid(s) {
          forall i | 0 <= i < |r.locations| ensures HasUserId(r, r.locations[i].userId) {
            assert HasUserId(s, s.locations[i].userId);
            var e :| e in s.users && s.users[e].id == s.locations[i].userId;
            assert r.users[e].id == s.users[e].id;
          }
        }
      }
      Some(r)
  }

  /** `prisma.location.create`: appends one row with a fresh id. */
  function InsertLocation(s: StoreState, city: string, country: string, userId: nat, isPrimary: bool): (r: StoreState)
    requires HasUserId(s, userId)
    ensures r.locations == s.locations + [Location(s.nextLocationId, city, country, userId, isPrimary)]
    ensures r.users == s.users && r.nextUserId == s.nextUserId
    ensures Valid(s) ==> Valid(r)
  {
    s.(locations := s.locations + [Location(s.nextLocationId, city, country, userId, isPrimary)],
       nextLocationId := s.nextLocationId + 1)
  }

  /** The locations a user owns, in table order (`include: { locations: true }`). */
  function OwnedBy(s: StoreState, userId: nat): (r: seq<Location>)
    ensures forall l :: l in r <==> l in s.locations && l.userId == userId
    ensures IsSubsequence(r, s.locations)
  {
    Filter(s.locations, (l: Location) => l.userId == userId)
  }

  /** The database as the route handlers see it: a mutable object whose methods
      are Prisma's create and update calls. */
  class Db {
    var users: map<string, User>
    var locations: seq<Location>
    var nextUserId: nat
    var nextLocationId: nat

    function State(): StoreState
      reads this
    {
      StoreState(users, locations, nextUserId, nextLocationId)
    }

    constructor ()
      ensures State() == Empty
    {
      users, locations, nextUserId, nextLocationId := map[], [], 0, 0;
    }

    /** `prisma.user.create`. The unique email constraint means the callers look
        the email up first; all of them do. */
    method CreateUser(email: string, name: Option<string>, password: Option<string>, isExtAuth: bool) returns (u: User)
      requires email !in users
      modifies this
      ensures State() == InsertUser(old(State()), email, name, password, isExtAuth)
      ensures u == NewUser(old(State()), email, name, password, isExtAuth)
    {
      u := User(nextUserId, email, name, password, isExtAuth, None, None);
      users := users[email := u];
      nextUserId := nextUserId + 1;
    }

    /** `prisma.user.update`; `found` is false where Prisma would throw. */
    method Update(email: string, p: UserPatch) returns (found: bool)
      modifies this
      ensures found == (email in old(users))
      ensures found ==> State() == UpdateUser(old(State()), email, p).value
      ensures !found ==> State() == old(State())
    {
      found := email in users;
      if found {
        var u := users[email];
        if p.subscriptionStatus.Some? {
          u := u.(subscriptionStatus := p.subscriptionStatus.value);
        }
        if p.stripeCustomerId.Some? {
          u := u.(stripeCustomerId := p.stripeCustomerId.value);
        }
        users := users[email := u];
      }
    }

    /** `prisma.location.create`. */
    method CreateLocation(city: string, country: string, userId: nat, isPrimary: bool) returns (loc: Location)
      requires HasUserId(State(), userId)
      modifies this
      ensures State() == InsertLocation(old(State()), city, country, userId, isPrimary)
      ensures loc == Location(old(nextLocationId), city, country, userId, isPrimary)
    {
      loc := Location(nextLocationId, city, country, userId, isPrimary);
      locations := locations + [loc];
      nextLocationId := nextLocationId + 1;
    }
  }
}
