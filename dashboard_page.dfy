/** The dashboard: it sends visitors without a session to registration and
    users without a plan to the plan choice, then shows the weather at the
    browser's position. */
module DashboardPage {
  import opened Common
  import opened Http
  import opened ClientTypes
  import Forecast

  /** The account half of the page's state. */
  datatype UserState = UserState(userInfo: Option<Profile>, loadingUser: bool, redirect: Option<string>)

  const InitialUser := UserState(None, true, None)

  /** The account effect for one value of `status`. `reply` is the answer to
      `GET /api/me`, or `None` when the request fails. Nothing catches a
      failure: a failed request, a body that is not JSON, or a body without a
      user makes the effect stop before `loadingUser` is cleared. */
  function FetchUser(status: SessionStatus, st: UserState, reply: Option<Response>): (r: UserState)
    ensures status == Loading ==> r == st
    ensures status == Unauthenticated ==> r == st.(redirect := Some("/register"))
    ensures status == Authenticated && reply.Some? && reply.value.Ok() && reply.value.body.UserJson? &&
            reply.value.body.user.Some? ==>
              var p := reply.value.body.user.value;
              && r.userInfo == Some(p) && !r.loadingUser
              && r.redirect == (if p.subscriptionStatus == Some("INACTIVE") then Some("/plans") else st.redirect)
    ensures status == Authenticated && reply.Some? && !reply.value.Ok() ==> r == st.(loadingUser := false)
    ensures status == Authenticated && (reply.None? || (reply.value.Ok() && !(reply.value.body.UserJson? && reply.value.body.user.Some?))) ==>
              r.loadingUser == st.loadingUser && r.redirect == st.redirect
  {
    match status
    case Loading => st
    case Unauthenticated => st.(redirect := Some("/register"))
    case Authenticated =>
      if reply.None? then st
      else if !reply.value.Ok() then st.(loadingUser := false)
      else if !IsJson(reply.value.body) then st
      else if !reply.value.body.UserJson? then st.(userInfo := None)
      else
        match reply.value.body.user
        case None => st.(userInfo := None)
        case Some(p) =>
          UserState(Some(p), false, if p.subscriptionStatus == Some("INACTIVE") then Some("/plans") else st.redirect)
  }

  /** Current conditions and one forecast entry, with temperatures rounded. */
  datatype Current = Current(name: string, description: string, temp: int, icon: string)
  datatype Entry = Entry(dt: int, temp: int, icon: string)
  datatype Weather = Weather(current: Current, list: seq<Entry>)

  /** What the browser's position request gives: no geolocation support, a
      refusal, or a position, for which `fetched` is the two provider answers
      (`None` when either fails). */
  datatype Geo = Unsupported | Denied | Located(fetched: Option<Weather>)

  /** The weather half of the page's state. */
  datatype WeatherState = WeatherState(current: Option<Current>, forecast: Option<seq<Entry>>,
                                       loadingWeather: bool, error: Option<string>)

  const InitialWeather := WeatherState(None, None, true, None)
  const NoGeolocation := "Geolocation is not supported by your browser."
  const FetchFailed := "Failed to fetch weather data."
  const PositionRefused := "Unable to retrieve your location. Please enable location services."

  /** The weather effect: it runs only with a session, and every path but the
      first clears `loadingWeather`. */
  function LoadWeather(status: SessionStatus, st: WeatherState, geo: Geo): (r: WeatherState)
    ensures status != Authenticated ==> r == st
    ensures status == Authenticated ==> !r.loadingWeather
    ensures status == Authenticated && geo == Unsupported ==> r == st.(error := Some(NoGeolocation), loadingWeather := false)
    ensures status == Authenticated && geo == Denied ==> r == st.(error := Some(PositionRefused), loadingWeather := false)
    ensures status == Authenticated && geo == Located(None) ==> r == st.(error := Some(FetchFailed), loadingWeather := false)
    ensures status == Authenticated && geo.Located? && geo.fetched.Some? ==>
              r == st.(current := Some(geo.fetched.value.current), forecast := Some(geo.fetched.value.list),
                       loadingWeather := false)
  {
    if status != Authenticated then st
    else
      match geo
      case Unsupported => st.(error := Some(NoGeolocation), loadingWeather := false)
      case Denied => st.(error := Some(PositionRefused), loadingWeather := false)
      case Located(None) => st.(error := Some(FetchFailed), loadingWeather := false)
      case Located(Some(w)) => st.(current := Some(w.current), forecast := Some(w.list), loadingWeather := false)
  }

  /** What the page shows. */
  datatype Screen =
    | AccountLoading
    | WeatherLoading
    | ErrorScreen(message: string)
    | NoData
    | DashboardView(greeting: Option<string>, current: Current, daily: seq<Entry>, hourly: seq<Entry>)

  /** The render: account loading, then weather loading, then the error, then
      missing data, then the dashboard. */
  function Render(status: SessionStatus, u: UserState, w: WeatherState, sessionName: Option<string>): (v: Screen)
    ensures (status == Loading || u.loadingUser) <==> v == AccountLoading
    ensures !(status == Loading || u.loadingUser) && w.loadingWeather ==> v == WeatherLoading
    ensures !(status == Loading || u.loadingUser) && !w.loadingWeather && Truthy(w.error) ==> v == ErrorScreen(w.error.value)
    ensures !(status == Loading || u.loadingUser) && !w.loadingWeather && !Truthy(w.error) &&
            (w.current.None? || w.forecast.None?) ==>
              v == NoData
    ensures v.DashboardView? <==>
              !(status == Loading || u.loadingUser) && !w.loadingWeather && !Truthy(w.error) &&
              w.current.Some? && w.forecast.Some?
    ensures v.DashboardView? ==>
              && v.greeting == sessionName
              && v.current == w.current.value
              && v.daily == Forecast.Daily(w.forecast.value)
              && v.hourly == Forecast.Hourly(w.forecast.value)
  {
    if status == Loading || u.loadingUser then AccountLoading
    else if w.loadingWeather then WeatherLoading
    else if Truthy(w.error) then ErrorScreen(w.error.value)
    else if w.current.None? || w.forecast.None? then NoData
    else DashboardView(sessionName, w.current.value, Forecast.Daily(w.forecast.value), Forecast.Hourly(w.forecast.value))
  }

  /** Without a session the account part never finishes loading: the page
      keeps its loading message while it redirects to registration. */
  lemma UnauthenticatedStaysOnAccountLoading(reply: Option<Response>, geo: Geo, sessionName: Option<string>)
    ensures var u := FetchUser(Unauthenticated, InitialUser, reply);
      && u.redirect == Some("/register")
      && Render(Unauthenticated, u, LoadWeather(Unauthenticated, InitialWeather, geo), sessionName) == AccountLoading
  {
  }

  /** A successful `/api/me` answer of `{ user: null }` leaves the page on its
      loading message for good, whatever the weather effect does. */
  lemma NullUserStaysOnAccountLoading(geo: Geo, sessionName: Option<string>)
    ensures var u := FetchUser(Authenticated, InitialUser, Some(Response(200, UserJson(None))));
      && u.redirect.None?
      && Render(Authenticated, u, LoadWeather(Authenticated, InitialWeather, geo), sessionName) == AccountLoading
  {
  }

  /** A signed-in user with a plan, a position and both provider answers
      reaches the dashboard, with at most five daily cards and eight hours. */
  lemma FullLoadShowsDashboard(p: Profile, w: Weather, sessionName: Option<string>)
    requires p.subscriptionStatus != Some("INACTIVE")
    ensures var u := FetchUser(Authenticated, InitialUser, Some(Response(200, UserJson(Some(p)))));
      var v := Render(Authenticated, u, LoadWeather(Authenticated, InitialWeather, Located(Some(w))), sessionName);
      && u.redirect.None?
      && v == DashboardView(sessionName, w.current, Forecast.Daily(w.list), Forecast.Hourly(w.list))
      && |v.daily| == Min(5, (|w.list| + 7) / 8) && |v.hourly| == Min(8, |w.list|)
  {
  }
}
