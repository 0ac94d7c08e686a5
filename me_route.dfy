/** `GET /api/me`: the signed-in user's public profile. */
module MeRoute {
  import opened Common
  import opened Store
  import opened Http

  const Unauthorized := Response(401, Text("Unauthorized"))

  /** The public projection of a user row. */
  function ProfileOf(u: User): Profile {
    Profile(u.name, u.email, u.subscriptionStatus)
  }

  /** The answer; being a function of the store, the route cannot change it.
      An unknown email is not an error: the body is `{ user: null }`. */
  function Me(s: StoreState, session: Option<string>): (r: Response)
    ensures !SignedIn(session) ==> r == Unauthorized
    ensures SignedIn(session) && session.value !in s.users ==> r == Response(200, UserJson(None))
    ensures SignedIn(session) && session.value in s.users ==>
              var u := s.users[session.value];
              r == Response(200, UserJson(Some(Profile(u.name, u.email, u.subscriptionStatus))))
  {
    if !SignedIn(session) then Unauthorized
    else
      match FindUser(s, session.value)
      case None => Response(200, UserJson(None))
      case Some(u) => Response(200, UserJson(Some(ProfileOf(u))))
  }

  /** Two stores that agree on every user's name, email and status give the
      same answer: passwords and customer ids never reach the response. */
  lemma MeHidesSecrets(s: StoreState, s': StoreState, session: Option<string>)
    requires s.users.Keys == s'.users.Keys
    requires forall e :: e in s.users ==> ProfileOf(s.users[e]) == ProfileOf(s'.users[e])
    ensures Me(s, session) == Me(s', session)
  {
  }
}
