/** `POST /api/activate-free-plan`. It writes the status "INACTIVE", not "FREE"
    as `POST /api/select-plan` does; the two routes disagree and both are kept. */
module ActivateFreePlanRoute {
  import opened Common
  import opened Store
  import opened Http

  const FreePlanStatus := "INACTIVE"
  const Unauthorized := Response(401, ErrorJson("Unauthorized"))
  const Activated := Response(200, MessageJson("Free plan activated"))

  /** The answer and the store after one call. */
  function Activate(s: StoreState, session: Option<string>): (o: Outcome)
    ensures !SignedIn(session) ==> o == Outcome(Unauthorized, s)
    ensures SignedIn(session) && session.value !in s.users ==> o == Outcome(InternalError, s)
    ensures SignedIn(session) && session.value in s.users ==>
              && o.response == Activated
              && o.store.users == s.users[session.value :=
                   s.users[session.value].(subscriptionStatus := Some(FreePlanStatus))]
              && o.store.locations == s.locations
              && o.store.nextUserId == s.nextUserId && o.store.nextLocationId == s.nextLocationId
    ensures Valid(s) ==> Valid(o.store)
  {
    if !SignedIn(session) then Outcome(Unauthorized, s)
    else
      match UpdateUser(s, session.value, UserPatch(Some(Some(FreePlanStatus)), None))
      case None => Outcome(InternalError, s)
      case Some(s') => Outcome(Activated, s')
  }

  /** The handler over the live database. */
  method Post(db: Db, session: Option<string>) returns (resp: Response)
    modifies db
    ensures Outcome(resp, db.State()) == Activate(old(db.State()), session)
  {
    if !SignedIn(session) {
      return Unauthorized;
    }
    var found := db.Update(session.value, UserPatch(Some(Some(FreePlanStatus)), None));
    if !found {
      return InternalError;
    }
    resp := Activated;
  }

  /** Calling the route twice has the same effect and answer as calling it once. */
  lemma ActivateIdempotent(s: StoreState, session: Option<string>)
    ensures Activate(Activate(s, session).store, session) == Activate(s, session)
  {
  }
}
