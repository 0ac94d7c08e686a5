/** The profile page: avatar, name, email, subscription status and plan. */
module ProfilePage {
  import opened Common
  import opened Text
  import opened ClientTypes
  import Auth

  const DefaultStatus := "INACTIVE"

  /** `subscription_status || "INACTIVE"`. */
  function StatusOrDefault(status: Option<string>): (r: string)
    ensures r != ""
    ensures Truthy(status) ==> r == status.value
    ensures !Truthy(status) ==> r == DefaultStatus
  {
    if Truthy(status) then status.value else DefaultStatus
  }

  /** The plan name shown for a status. */
  function Plan(status: string): (r: string)
    ensures r == "Premium" <==> status == "ACTIVE"
    ensures r == "Free" <==> status != "ACTIVE"
  {
    if status == "ACTIVE" then "Premium" else "Free"
  }

  /** The Manage Subscription button appears only for an active subscription. */
  predicate ShowManage(status: string) {
    status == "ACTIVE"
  }

  /** The avatar letter: the name's first character upper-cased, or "U". */
  function Avatar(name: Option<string>): (r: string)
    ensures |r| == 1
    ensures Truthy(name) ==> r[0] == ToUpperChar(name.value[0])
    ensures !Truthy(name) ==> r == "U"
  {
    if Truthy(name) then [ToUpperChar(name.value[0])] else "U"
  }

  /** `/register` for a visitor without a session, otherwise no redirect. */
  function Redirect(status: SessionStatus): (r: Option<string>)
    ensures r.Some? <==> status == Unauthenticated
    ensures r.Some? ==> r.value == "/register"
  {
    if status == Unauthenticated then Some("/register") else None
  }

  /** What the page shows. */
  datatype View =
    | Spinner
    | ProfileCard(avatar: string, displayName: string, email: Option<string>, status: string,
                  plan: string, manageButton: bool)

  /** The page for the session user `user` (`None` without a session). */
  function Render(status: SessionStatus, user: Option<Auth.SessionUserData>): (v: View)
    ensures status == Loading <==> v == Spinner
    ensures v.ProfileCard? ==>
              var s := if user.Some? then user.value.subscriptionStatus else None;
              && v.status == StatusOrDefault(s)
              && (v.plan == "Premium" <==> s == Some("ACTIVE"))
              && (v.manageButton <==> s == Some("ACTIVE"))
              && |v.avatar| == 1
  {
    if status == Loading then Spinner
    else
      var name := if user.Some? then user.value.name else None;
      var s := StatusOrDefault(if user.Some? then user.value.subscriptionStatus else None);
      ProfileCard(Avatar(name), if Truthy(name) then name.value else "Unknown User",
                  if user.Some? then user.value.email else None,
                  s, Plan(s), ShowManage(s))
  }

  /** The button and the plan agree: the button shows exactly on "Premium". */
  lemma ManageButtonIffPremium(status: SessionStatus, user: Option<Auth.SessionUserData>)
    requires Render(status, user).ProfileCard?
    ensures Render(status, user).manageButton <==> Render(status, user).plan == "Premium"
  {
  }
}
