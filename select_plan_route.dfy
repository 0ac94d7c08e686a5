/** `POST /api/select-plan`: only the plan "FREE" is accepted, and it sets the
    status "FREE". */
module SelectPlanRoute {
  import opened Common
  import opened Store
  import opened Http

  /** The JSON body; `plan` is `None` when the field is absent. */
  datatype SelectPlanRequest = SelectPlanRequest(plan: Option<string>)

  const Unauthorized := Response(401, Text("Unauthorized"))
  const InvalidPlan := Response(400, Text("Invalid plan"))
  const Selected := Response(200, Text("OK"))

  /** The answer and the store after one call. The session is checked before
      the body is read, so without it the plan does not matter. */
  function Select(s: StoreState, session: Option<string>, req: SelectPlanRequest): (o: Outcome)
    ensures !SignedIn(session) ==> o == Outcome(Unauthorized, s)
    ensures SignedIn(session) && req.plan != Some("FREE") ==> o == Outcome(InvalidPlan, s)
    ensures SignedIn(session) && req.plan == Some("FREE") && session.value !in s.users ==> o == Outcome(InternalError, s)
    ensures SignedIn(session) && req.plan == Some("FREE") && session.value in s.users ==>
              && o.response == Selected
              && o.store.users == s.users[session.value :=
                   s.users[session.value].(subscriptionStatus := Some("FREE"))]
              && o.store.locations == s.locations
              && o.store.nextUserId == s.nextUserId && o.store.nextLocationId == s.nextLocationId
    ensures Valid(s) ==> Valid(o.store)
  {
    if !SignedIn(session) then Outcome(Unauthorized, s)
    else if req.plan != Some("FREE") then Outcome(InvalidPlan, s)
    else
      match UpdateUser(s, session.value, UserPatch(Some(Some("FREE")), None))
      case None => Outcome(InternalError, s)
      case Some(s') => Outcome(Selected, s')
  }

  /** The handler over the live database. */
  method Post(db: Db, session: Option<string>, req: SelectPlanRequest) returns (resp: Response)
    modifies db
    ensures Outcome(resp, db.State()) == Select(old(db.State()), session, req)
  {
    if !SignedIn(session) {
      return Unauthorized;
    }
    if req.plan != Some("FREE") {
      return InvalidPlan;
    }
    var found := db.Update(session.value, UserPatch(Some(Some("FREE")), None));
    if !found {
      return InternalError;
    }
    resp := Selected;
  }

  /** Selecting the free plan twice has the same effect and answer as once. */
  lemma SelectIdempotent(s: StoreState, session: Option<string>, req: SelectPlanRequest)
    ensures Select(Select(s, session, req).store, session, req) == Select(s, session, req)
  {
  }
}
