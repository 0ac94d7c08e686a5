/** How the routes and the pages fit together: what the pages show after the
    plan and payment routes have written a user's status, and how the
    locations page's list follows the server's. */
module Flows {
  import opened Common
  import opened Store
  import opened Http
  import opened ClientTypes
  import Auth
  import MeRoute
  import ActivateFreePlanRoute
  import SelectPlanRoute
  import WebhookRoute
  import LocationsRoute
  import DashboardPage
  import ProfilePage
  import LocationsPage

  /** The profile page for a signed-in user whose session was built from store `s`. */
  function ProfileAfter(s: StoreState, t: Auth.TokenClaims): ProfilePage.View {
    ProfilePage.Render(Authenticated, Some(Auth.SessionData(t, s)))
  }

  /** The dashboard's account state once `/api/me` has answered from store `s`. */
  function DashboardUserAfter(s: StoreState, email: string): DashboardPage.UserState {
    DashboardPage.FetchUser(Authenticated, DashboardPage.InitialUser, Some(MeRoute.Me(s, Some(email))))
  }

  /** Activating the free plan writes "INACTIVE", which the dashboard treats
      as "no plan chosen": it sends the user back to the plan choice, while the
      profile shows the free plan without the management button. */
  lemma FreeActivationSendsBackToPlans(s: StoreState, t: Auth.TokenClaims)
    requires t.email != "" && t.email in s.users
    ensures var after := ActivateFreePlanRoute.Activate(s, Some(t.email)).store;
      && DashboardUserAfter(after, t.email).redirect == Some("/plans")
      && ProfileAfter(after, t).status == "INACTIVE"
      && ProfileAfter(after, t).plan == "Free"
      && !ProfileAfter(after, t).manageButton
  {
  }

  /** Selecting the free plan writes "FREE", which lets the user stay on the
      dashboard; the profile shows the same free plan. */
  lemma FreeSelectionStaysOnDashboard(s: StoreState, t: Auth.TokenClaims)
    requires t.email != "" && t.email in s.users
    ensures var after := SelectPlanRoute.Select(s, Some(t.email), SelectPlanRoute.SelectPlanRequest(Some("FREE"))).store;
      && DashboardUserAfter(after, t.email).redirect.None?
      && !DashboardUserAfter(after, t.email).loadingUser
      && ProfileAfter(after, t).status == "FREE"
      && ProfileAfter(after, t).plan == "Free"
  {
  }

  /** A completed checkout for a known customer email turns the profile to
      the premium plan with the management button. */
  lemma CheckoutMakesPremium(s: StoreState, t: Auth.TokenClaims, payload: string, signature: string,
                             constructEvent: (string, string) -> Result<WebhookRoute.Event, string>)
    requires signature != ""
    requires constructEvent(payload, signature).Success?
    requires constructEvent(payload, signature).value.eventType == WebhookRoute.CheckoutCompleted
    requires constructEvent(payload, signature).value.customerEmail == Some(t.email)
    requires t.email != "" && t.email in s.users
    ensures var after := WebhookRoute.Webhook(s, payload, Some(signature), constructEvent).store;
      && ProfileAfter(after, t).plan == "Premium"
      && ProfileAfter(after, t).manageButton
      && DashboardUserAfter(after, t.email).redirect.None?
  {
  }

  /** A session whose email has no user row gets `{ user: null }` from
      `/api/me`, and the dashboard stays on its loading message. */
  lemma UnknownSessionUserStaysLoading(s: StoreState, email: string, w: DashboardPage.WeatherState,
                                       sessionName: Option<string>)
    requires email != "" && email !in s.users
    ensures DashboardPage.Render(Authenticated, DashboardUserAfter(s, email), w, sessionName) == DashboardPage.AccountLoading
  {
  }

  /** The create route answers with a stored row whenever it succeeds, which
      is what the locations page expects of it. */
  lemma CreateAnswersFitPage(s: StoreState, session: Option<string>, body: LocationsRoute.NewLocation)
    ensures LocationsPage.CreateReply(Some(LocationsRoute.Create(s, session, body).response))
  {
  }

  /** When the page's list is the server's list, adding the picked place keeps
      the two equal: the page appends the row the server stored, and the
      server lists it after the ones before. */
  lemma PageListFollowsServer(s: StoreState, email: string, p: LocationsPage.Page)
    requires p.selected.Some?
    requires email != "" && email in s.users
    requires p.locations == OwnedBy(s, s.users[email].id)
    requires p.selected.value.city != "" && p.selected.value.country != ""
    ensures var body := LocationsRoute.NewLocation(Some(p.selected.value.city), Some(p.selected.value.country), None);
      var created := LocationsRoute.Create(s, Some(email), body);
      LocationsPage.HandleAdd(p, Some(created.response)).page.locations ==
        LocationsRoute.List(created.store, Some(email)).body.locations
  {
    var body := LocationsRoute.NewLocation(Some(p.selected.value.city), Some(p.selected.value.country), None);
    LocationsRoute.CreateThenList(s, Some(email), body);
  }
}
