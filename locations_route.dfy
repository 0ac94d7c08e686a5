/** `GET /api/locations` (the caller's saved locations) and `POST /api/locations`
    (save a new one). */
module LocationsRoute {
  import opened Common
  import opened Store
  import opened Http

  /** The JSON body of a create request; absent fields are `None`. */
  datatype NewLocation = NewLocation(city: Option<string>, country: Option<string>, isPrimary: Option<bool>)

  const Unauthorized := Response(401, ErrorJson("Unauthorized"))
  const UserNotFound := Response(404, ErrorJson("User not found"))
  const MissingCityOrCountry := Response(400, ErrorJson("Missing city or country"))

  /** The locations the signed-in user owns. */
  function List(s: StoreState, session: Option<string>): (r: Response)
    ensures !SignedIn(session) ==> r == Unauthorized
    ensures SignedIn(session) && session.value !in s.users ==> r == UserNotFound
    ensures SignedIn(session) && session.value in s.users ==>
              && r.status == 200 && r.body.LocationsJson?
              && (forall l :: l in r.body.locations <==> l in s.locations && l.userId == s.users[session.value].id)
              && IsSubsequence(r.body.locations, s.locations)
  {
    if !SignedIn(session) then Unauthorized
    else
      match FindUser(s, session.value)
      case None => UserNotFound
      case Some(u) => Response(200, LocationsJson(OwnedBy(s, u.id)))
  }

  /** The row a successful create inserts: `is_primary` defaults to false. */
  function NewRow(s: StoreState, owner: User, body: NewLocation): Location
    requires body.city.Some? && body.country.Some?
  {
    Location(s.nextLocationId, body.city.value, body.country.value, owner.id,
             if body.isPrimary.Some? then body.isPrimary.value else false)
  }

  /** The answer and store after a create request. The session is checked
      first, then the fields, and only then is the user looked up. */
  function Create(s: StoreState, session: Option<string>, body: NewLocation): (o: Outcome)
    ensures !SignedIn(session) ==> o == Outcome(Unauthorized, s)
    ensures SignedIn(session) && !(Truthy(body.city) && Truthy(body.country)) ==> o == Outcome(MissingCityOrCountry, s)
    ensures SignedIn(session) && Truthy(body.city) && Truthy(body.country) && session.value !in s.users ==>
              o == Outcome(UserNotFound, s)
    ensures SignedIn(session) && Truthy(body.city) && Truthy(body.country) && session.value in s.users ==>
              var row := NewRow(s, s.users[session.value], body);
              && o.response == Response(201, LocationJson(row))
              && o.store.locations == s.locations + [row]
              && o.store.users == s.users
    ensures Valid(s) ==> Valid(o.store)
  {
    if !SignedIn(session) then Outcome(Unauthorized, s)
    else if !Truthy(body.city) || !Truthy(body.country) then Outcome(MissingCityOrCountry, s)
    else
      match FindUser(s, session.value)
      case None => Outcome(UserNotFound, s)
      case Some(u) =>
        assert HasUserId(s, u.id) by { assert s.users[session.value].id == u.id; }
        Outcome(Response(201, LocationJson(NewRow(s, u, body))),
                InsertLocation(s, body.city.value, body.country.value, u.id, NewRow(s, u, body).isPrimary))
  }

  /** The create handler over the live database. */
  method Post(db: Db, session: Option<string>, body: NewLocation) returns (resp: Response)
    modifies db
    ensures Outcome(resp, db.State()) == Create(old(db.State()), session, body)
  {
    if !SignedIn(session) {
      return Unauthorized;
    }
    if !Truthy(body.city) || !Truthy(body.country) {
      return MissingCityOrCountry;
    }
    var user := FindUser(db.State(), session.value);
    if user.None? {
      return UserNotFound;
    }
    var isPrimary := if body.isPrimary.Some? then body.isPrimary.value else false;
    assert HasUserId(db.State(), user.value.id) by { assert db.users[session.value] == user.value; }
    var loc := db.CreateLocation(body.city.value, body.country.value, user.value.id, isPrimary);
    resp := Response(201, LocationJson(loc));
  }

  /** A location just created shows up at the end of the owner's list, after
      the ones the owner already had. */
  lemma {:induction false} CreateThenList(s: StoreState, session: Option<string>, body: NewLocation)
    requires Create(s, session, body).response.status == 201
    ensures var o := Create(s, session, body);
      List(o.store, session) == Response(200, LocationsJson(
        OwnedBy(s, s.users[session.value].id) + [o.response.body.location]))
  {
    var o := Create(s, session, body);
    var id := s.users[session.value].id;
    var row := NewRow(s, s.users[session.value], body);
    FilterAppend(s.locations, [row], (l: Location) => l.userId == id);
  }

  /** A known user who has saved nothing gets 200 and an empty list. */
  lemma EmptyListForNewUser(s: StoreState, session: Option<string>)
    requires SignedIn(session) && session.value in s.users
    requires forall l :: l in s.locations ==> l.userId != s.users[session.value].id
    ensures List(s, session) == Response(200, LocationsJson([]))
  {
  }
}
