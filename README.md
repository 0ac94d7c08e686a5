# Weatherapp in Dafny

A Dafny model of the account, subscription and saved-location logic of
Weatherapp. Weatherapp is a Next.js weather dashboard with password and
Google sign-in, a free plan and a paid plan, and a list of saved cities. The
model has two halves.

- **Server.** A store of users keyed by email and of locations owned by user
  ids (`Store`), and the API route handlers that read and write it:
  - registration
  - the next-auth callbacks: `authorize`, `signIn`, `jwt`, `session`
  - free-plan activation and plan selection
  - the payment webhook
  - the location list and create
  - `/api/me`

  Each writing route is a function from the store to an `Outcome`, which holds
  the response and the new store. Beside it is a `Post` method that performs
  the same change on a `Db` object and is proved equal to that function.
  Read-only routes are functions of the store. Every route preserves the
  store invariant `Valid`: emails and ids are unique, and every location's
  owner exists.
- **Browser.** The decision logic of the pages and components:
  - the registration form's validation
  - the case-insensitive location search
  - forecast subsampling
  - the weather page's `city-country` record
  - the dashboard's redirects and render order
  - the saved-location list updates
  - the profile's plan display

  A page's state is a datatype, and each handler or effect is a function from
  the old state and the server's answer to the new state. The registration
  form, whose handlers update form fields one at a time, is a class. The weather
  page's record is built by a loop.

The bcrypt hash and compare, the payment provider's signature check
(`constructEvent`), the weather provider and the browser's position are
parameters. A failed request is an absent answer (`None`).

Behaviour the model keeps as written:
- Free-plan activation stores the status "INACTIVE", but plan selection stores
  "FREE". The dashboard sends "INACTIVE" users back to the plan choice, so a
  user who activates the free plan is sent back there (`Flows.FreeActivationSendsBackToPlans`).
- The dashboard stays on "Loading your account..." in three cases:
  - `/api/me` answers `{ user: null }` (`DashboardPage.NullUserStaysOnAccountLoading`, `Flows.UnknownSessionUserStaysLoading`)
  - the request fails
  - there is no session
- The new-location form keeps `loading` set when its request fails.
- The locations page renders its picker without the props the picker reads, so on that page no place can be chosen and Add only alerts (see "## Findings"). `LocationsPage.HandleAdd` and `Flows.PageListFollowsServer` describe the add path as it works once the picker is wired as intended (`LocationsPage.Step` with `LocationsPage.Intended`).
- The weather page's key `city-country` can be shared by different places, e.g. "A-B"/"C" and "A"/"B-C". The last such place's weather is then shown for all of them.
- A failed weather fetch leaves an empty grid rather than the "no locations" message.
- Delivering the same checkout event twice leaves the same store as delivering it once, because the update writes fixed values (`WebhookRoute.WebhookIdempotent`). The webhook route has no replay protection, but none is needed for this outcome.

## Model

| member | source | states |
|---|---|---|
| Store.FindUser | src/app/api/me/route.ts:12-19 | `findUnique` by email: the row stored under that email, or none |
| Store.InsertUser | src/app/api/register/route.ts:18-25 | `user.create` adds exactly one row under the new email, with the next id and no status or customer id; every other row is unchanged; `Valid` is preserved |
| Store.ApplyPatch | src/app/api/stripe/webhook/route.ts:47-50 | an update sets exactly the fields its data names and keeps id, email, name, password and external flag |
| Store.ApplyPatchIdempotent | src/app/api/stripe/webhook/route.ts:45-51 | applying the same update twice equals applying it once |
| Store.UpdateUser | src/app/api/activate-free-plan/route.ts:13-16 | `user.update` of a missing email fails with the store unchanged; otherwise only that row changes, by the patch; `Valid` is preserved |
| Store.InsertLocation | src/app/api/locations/route.ts:47-54 | `location.create` appends one row with the next id and the given owner; users are unchanged; `Valid` is preserved |
| Store.OwnedBy | src/app/api/locations/route.ts:13-22 | `include: { locations }`: exactly the locations with that owner id, in stored order |
| Store.Db.CreateUser | src/app/api/register/route.ts:18-25 | the live create leaves the store equal to `InsertUser` of the old store |
| Store.Db.Update | src/app/api/activate-free-plan/route.ts:13-16 | the live update reports whether the row exists and leaves the store equal to `UpdateUser`, or unchanged |
| Store.Db.CreateLocation | src/app/api/locations/route.ts:47-54 | the live create leaves the store equal to `InsertLocation` of the old store |
| RegisterRoute.Register | src/app/api/register/route.ts:5-28 | an existing email gives 400 "User already exists." with nothing changed; otherwise exactly one user is added with the given email and name, password `hash(password)`, `isExtAuth` false, and "User registered successfully"; existing rows are kept |
| RegisterRoute.Post | src/app/api/register/route.ts:5-28 | the handler's response and new store are those of `Register` |
| RegisterRoute.RegisterTwiceRejected | src/app/api/register/route.ts:8-14 | registering an email a second time is refused and changes nothing |
| Auth.Authorize | src/lib/auth.ts:16-45 | absent credentials or an empty email or password give "Missing credentials"; an unknown email, no password or an external user give "Invalid credentials or external user."; success holds iff the hash comparison holds, and returns the stored id, name and email with `isExtAuth` false |
| Auth.RegisterThenAuthorize | src/lib/auth.ts:25-44 | a freshly registered account authorizes with its own password and gets the new id |
| Auth.SignInResult | src/lib/auth.ts:60-82 | Google sign-in of an unknown email adds one external user without a password; of a local user fails with "Use email/password to login."; every other sign-in returns true with the store unchanged |
| Auth.SignIn | src/lib/auth.ts:60-82 | the live callback's result and store are those of `SignInResult` |
| Auth.GoogleSignInIdempotent | src/lib/auth.ts:66-81 | a repeated Google sign-in succeeds and adds no second user |
| Auth.GoogleAccountCannotAuthorize | src/lib/auth.ts:29-31 | an account created by Google sign-in never passes `authorize` |
| Auth.RegisteredEmailRefusesGoogle | src/lib/auth.ts:76-78 | after a password registration, Google sign-in for that email is refused |
| Auth.JwtClaims | src/lib/auth.ts:84-93 | `isExtAuth` becomes true for Google, false when the user says false, else stays; `id` is copied when present; name and email never change |
| Auth.JwtIdempotent | src/lib/auth.ts:84-93 | running the `jwt` callback twice with the same arguments equals running it once |
| Auth.CredentialsLoginToken | src/lib/auth.ts:39-44 | a credentials login gives a token with `isExtAuth` false and the stored user's id |
| Auth.Jwt | src/lib/auth.ts:84-93 | the token object is updated in place to `JwtClaims` of its old claims and returned |
| Auth.OrNull | src/lib/auth.ts:109-110 | `value \|\| null`: a non-empty value is kept, anything else becomes null |
| Auth.SessionData | src/lib/auth.ts:95-111 | name, email and flag come from the token; customer id and status come from the row with the token's email, or null |
| Auth.Session | src/lib/auth.ts:95-114 | when `session.user` exists it is filled in place with `SessionData`; the same session is returned |
| LocationsRoute.List | src/app/api/locations/route.ts:6-23 | no session gives 401; an unknown user gives 404; otherwise 200 with exactly the user's locations, in order |
| LocationsRoute.Create | src/app/api/locations/route.ts:25-57 | 401 without a session; then 400 when city or country is missing or empty; then 404 for an unknown user; each with nothing changed; otherwise one location with that owner, city and country is appended (`is_primary` defaults to false) and returned with 201 |
| LocationsRoute.Post | src/app/api/locations/route.ts:25-57 | the handler's response and new store are those of `Create` |
| LocationsRoute.CreateThenList | src/app/api/locations/route.ts:13-22 | after a create, the list is the old list followed by the new location |
| LocationsRoute.EmptyListForNewUser | src/app/api/locations/route.ts:13-22 | a known user with no locations gets 200 and an empty list |
| WebhookRoute.Webhook | src/app/api/stripe/webhook/route.ts:13-56 | a missing signature or a failed verification gives 400 with nothing changed; other events, or a completed session without an email, give `{received: true}` with nothing changed; a completed session sets only that user's status to ACTIVE and customer id |
| WebhookRoute.Post | src/app/api/stripe/webhook/route.ts:13-56 | the handler's response and new store are those of `Webhook` |
| WebhookRoute.WebhookIdempotent | src/app/api/stripe/webhook/route.ts:45-51 | delivering the same event twice gives the same answer and store as delivering it once |
| ActivateFreePlanRoute.Activate | src/app/api/activate-free-plan/route.ts:7-19 | no session gives 401 with nothing changed; otherwise only that user's status changes, to "INACTIVE", with "Free plan activated" |
| ActivateFreePlanRoute.Post | src/app/api/activate-free-plan/route.ts:7-19 | the handler's response and new store are those of `Activate` |
| ActivateFreePlanRoute.ActivateIdempotent | src/app/api/activate-free-plan/route.ts:13-16 | a second call changes nothing more and answers the same |
| SelectPlanRoute.Select | src/app/api/select-plan/route.ts:5-24 | no session gives 401 before the plan is read; any plan but "FREE" gives 400 "Invalid plan" with nothing changed; "FREE" sets only that user's status, to "FREE", and answers "OK" |
| SelectPlanRoute.Post | src/app/api/select-plan/route.ts:5-24 | the handler's response and new store are those of `Select` |
| SelectPlanRoute.SelectIdempotent | src/app/api/select-plan/route.ts:18-23 | a second selection changes nothing more and answers the same |
| MeRoute.Me | src/app/api/me/route.ts:5-22 | no session gives 401; an unknown user gives 200 `{user: null}`; otherwise 200 with name, email and status only; the store is not an output |
| MeRoute.MeHidesSecrets | src/app/api/me/route.ts:12-19 | stores that differ only in passwords, customer ids, ids or external flags give the same response |
| Text.TrimStart | src/components/LocationPicker.tsx:15 | removes exactly the leading whitespace: the result is a suffix, everything dropped is whitespace, and it does not start with whitespace |
| Text.TrimEnd | src/components/LocationPicker.tsx:15 | removes exactly the trailing whitespace, symmetrically |
| Text.TrimEmptyIffBlank | src/app/register/page.tsx:62 | a string trims to empty iff every character is whitespace |
| Text.ToLower | src/components/LocationPicker.tsx:19-24 | lower-casing keeps the length and maps each character |
| Text.IncludesIffOccurs | src/components/LocationPicker.tsx:23-24 | `includes` holds iff the text occurs at some position |
| Common.Filter | src/components/LocationPicker.tsx:20-26 | `filter` keeps exactly the elements satisfying the test, each as many times as it occurs, as an order-preserving subsequence |
| Common.FilterAppend | src/app/locations/page.tsx:92 | filtering a concatenation filters each part |
| Common.FilterKeepsAll | src/app/locations/page.tsx:92 | filtering changes nothing when every element passes |
| Common.SubsequenceNotLonger | src/components/LocationPicker.tsx:20-26 | a subsequence is no longer than the sequence |
| Common.SubsequenceElements | src/components/LocationPicker.tsx:20-26 | every element of a subsequence is in the sequence |
| LocationPicker.Search | src/components/LocationPicker.tsx:14-27 | a blank query gives no suggestions; otherwise exactly the places whose lower-cased city or country contains the lower-cased query, in order |
| LocationPicker.BlankQueryShowsNothing | src/components/LocationPicker.tsx:15-18 | an all-whitespace query gives no suggestions |
| LocationPicker.SuggestionContainsQuery | src/components/LocationPicker.tsx:22-24 | every suggestion's city or country contains the query at some position |
| LocationPicker.Refresh | src/components/LocationPicker.tsx:14-27 | the effect keeps the query and sets the suggestions to `Search` |
| LocationPicker.RefreshWithProp | src/components/LocationPicker.tsx:14-27 | without the `locations` prop, a blank query clears the suggestions and any other query throws; with it, the effect is `Refresh` |
| LocationPicker.Select | src/components/LocationPicker.tsx:44-48 | choosing a place sets the text to "city, country" and clears the suggestions |
| LocationPicker.MatchNeedsLongName | src/components/LocationPicker.tsx:22-24 | a place matches only a query no longer than its city or its country |
| LocationPicker.SuggestionsHaveLongNames | src/components/LocationPicker.tsx:20-26 | every suggestion has a city or country at least as long as the query |
| LocationPicker.ChosenPlaceNotRelisted | src/components/LocationPicker.tsx:14-27 | after a choice, the chosen place is not suggested again |
| RegisterPage.FirstAt | src/app/register/page.tsx:40 | the index of the first `@`, or the length when there is none |
| RegisterPage.EmailPatternIffShape | src/app/register/page.tsx:63 | the scan accepts exactly the strings `^[^\s@]+@[^\s@]+\.[^\s@]+$` matches |
| RegisterPage.SubmitChecksMeaning | src/app/register/page.tsx:62-64 | name valid iff it has a non-whitespace character; email valid iff it has the pattern's shape; password valid iff its length is at least 6 |
| RegisterPage.LiveAgreesWithSubmit | src/app/register/page.tsx:39-46 | the live flag equals the submit check for non-empty values; an empty value passes live and fails on submit |
| RegisterPage.RegisterForm.HandleInputChange | src/app/register/page.tsx:32-47 | stores the value and updates only the changed field's flag |
| RegisterPage.RegisterForm.HandleSubmit | src/app/register/page.tsx:57-96 | sends a request iff all three checks pass, else sets the flags to exactly those checks; a refusal shows `error` or "Something went wrong"; a failure shows the network error; success redirects to /login; loading ends cleared |
| Forecast.EveryEighth | src/app/weather/page.tsx:62-64 | ceil(n/8) entries; entry k is the input's entry 8k |
| Forecast.EveryEighthKeepsMultiples | src/app/weather/page.tsx:62-64 | every entry at an index divisible by 8 is kept at position index / 8 |
| Forecast.Daily | src/app/dashboard/page.tsx:203-205 | min(5, ceil(n/8)) entries; entry k is the input's entry 8k |
| Forecast.Hourly | src/app/dashboard/page.tsx:234 | the first min(8, n) entries |
| Forecast.DailyAndHourlyStartTogether | src/app/dashboard/page.tsx:203-234 | both selections start with the same entry, and up to eight entries give one daily card |
| WeatherPage.KeyOf | src/app/weather/page.tsx:71 | the key is the city, a hyphen, then the country |
| WeatherPage.HyphenatedNamesShareKey | src/app/weather/page.tsx:71 | different places can have the same key |
| WeatherPage.WeatherFor | src/app/weather/page.tsx:53-76 | current conditions of that place and one forecast item per eighth entry |
| WeatherPage.FetchAll | src/app/weather/page.tsx:47-79 | succeeds iff the fetch for every place's city succeeds, giving one keyed entry per place in order, built from the weather of its city |
| WeatherPage.SameCitySameWeather | src/app/weather/page.tsx:48-51 | two places with the same city get the same temperature, conditions and forecast, whatever their countries |
| WeatherPage.WeatherMap | src/app/weather/page.tsx:80-83 | every entry's key is in the record |
| WeatherPage.WeatherMapOnlyEntryKeys | src/app/weather/page.tsx:80-83 | the record has no key that no entry has |
| WeatherPage.WeatherMapLastWins | src/app/weather/page.tsx:80-83 | each key holds the data of the last entry with that key |
| WeatherPage.BuildWeatherMap | src/app/weather/page.tsx:80-83 | the `forEach` loop builds exactly `WeatherMap` |
| WeatherPage.LoadWeather | src/app/weather/page.tsx:38-91 | loading ends false on every path; a failed list load alerts and keeps nothing; a failed weather fetch keeps the list, alerts and leaves the record empty; otherwise the record is `WeatherMap` of the fetched entries |
| WeatherPage.Cards | src/app/weather/page.tsx:110-113 | the cards' places are exactly the list filtered to places whose key has weather, in list order and once each; each card shows the weather under its place's key |
| WeatherPage.KeyedLocationHasCard | src/app/weather/page.tsx:110-113 | a place whose key has weather has a card showing that weather |
| WeatherPage.AllKeyedGivesEveryCard | src/app/weather/page.tsx:110-113 | when every key has weather, the cards' places are the whole list |
| WeatherPage.NoKeyGivesNoCard | src/app/weather/page.tsx:110-113 | when no key has weather, there are no cards |
| WeatherPage.Render | src/app/weather/page.tsx:104-109 | loading, then "no locations", then the grid |
| WeatherPage.CardShowsLastSharer | src/app/weather/page.tsx:80-113 | after a full load every place has a card, and places sharing a key show the last one's weather |
| WeatherPage.FailedFetchShowsEmptyGrid | src/app/weather/page.tsx:85-109 | after a failed weather fetch the page shows an empty grid |
| DashboardPage.FetchUser | src/app/dashboard/page.tsx:22-45 | no session redirects to /register; a user with status INACTIVE is redirected to /plans; a refused request ends loading; a failure or a null user leaves loading on |
| DashboardPage.LoadWeather | src/app/dashboard/page.tsx:48-80 | runs only with a session; unsupported, refused and failed positions set their error messages; every path clears loading |
| DashboardPage.Render | src/app/dashboard/page.tsx:82-126 | account loading, then weather loading, then error, then missing data, then the dashboard greeting the session name, with the current weather, `Daily` and `Hourly` of the forecast |
| DashboardPage.UnauthenticatedStaysOnAccountLoading | src/app/dashboard/page.tsx:23-27 | without a session the page redirects and keeps its loading message |
| DashboardPage.NullUserStaysOnAccountLoading | src/app/dashboard/page.tsx:33-40 | `{user: null}` leaves the page loading for good |
| DashboardPage.FullLoadShowsDashboard | src/app/dashboard/page.tsx:22-126 | a user with a plan and full weather data reaches the dashboard with five or fewer days and eight or fewer hours |
| LocationsPage.InitialLoad | src/app/locations/page.tsx:22-40 | a successful load replaces the list; a failed one alerts; initial loading ends either way |
| LocationsPage.HandleAdd | src/app/locations/page.tsx:42-76 | no selection alerts and sends nothing; success appends the returned location and clears the selection; a refusal alerts `error` or the fallback and changes nothing else |
| LocationsPage.RemoveById | src/app/locations/page.tsx:92 | removes every entry with that id and keeps the others in order |
| LocationsPage.HandleRemove | src/app/locations/page.tsx:78-97 | nothing without confirmation; success removes the id; a failure alerts and keeps the list |
| LocationsPage.RemoveUndoesAdd | src/app/locations/page.tsx:68-92 | removing a just-added location restores the previous list |
| LocationsPage.Step | src/app/locations/page.tsx:42-106 | one user event on the page with its picker: a query without a place list throws; only a click on a suggestion with `onSelect` wired changes the selection, to that suggestion; Add is `HandleAdd` |
| LocationsPage.TypingBreaksAsWritten | src/app/locations/page.tsx:106 | as wired, typing a non-blank query throws in the picker's effect |
| LocationsPage.AsWrittenNeverSelects | src/app/locations/page.tsx:106 | as wired, no run of events offers a suggestion or sets a selection |
| LocationsPage.AsWrittenAddOnlyAlerts | src/app/locations/page.tsx:42-46 | as wired, after any run of events Add only alerts "Please select a location first." and sends nothing |
| LocationsPage.TypingSuggestsAsIntended | src/components/NewLocationForm.tsx:96-99 | wired with a catalog, typing fills the suggestions with `Search` of the catalog |
| LocationsPage.ClickSelects | src/components/LocationPicker.tsx:44-48 | with `onSelect` wired, clicking a listed suggestion selects that place and closes the list |
| LocationsPage.IntendedClickIsSent | src/components/NewLocationForm.tsx:96-99 | wired with a catalog and `onSelect`, clicking a suggestion selects it and Add sends it |
| NewLocationForm.Load | src/components/NewLocationForm.tsx:15-26 | the saved list loads only with a session and only an accepted answer replaces it |
| NewLocationForm.HandleAdd | src/components/NewLocationForm.tsx:28-47 | no selection alerts and sends nothing; success appends and clears the selection; a refusal alerts and keeps list and selection; a failed request keeps loading set |
| NewLocationForm.RefusedAddCanBeRetried | src/components/NewLocationForm.tsx:44-46 | after a refusal the same selection can be sent again |
| ProfilePage.StatusOrDefault | src/app/profile/page.tsx:27 | a missing or empty status reads "INACTIVE" |
| ProfilePage.Plan | src/app/profile/page.tsx:28 | "Premium" iff the status is ACTIVE, else "Free" |
| ProfilePage.Avatar | src/app/profile/page.tsx:59 | one letter: the name's first character upper-cased (ASCII letters only), or "U" |
| ProfilePage.Redirect | src/app/profile/page.tsx:12-16 | redirects to /register iff there is no session |
| ProfilePage.Render | src/app/profile/page.tsx:18-80 | a spinner while loading; otherwise the defaulted status, with the plan and the manage button both tied to ACTIVE |
| ProfilePage.ManageButtonIffPremium | src/app/profile/page.tsx:73 | the manage button shows exactly when the plan is Premium |
| Flows.FreeActivationSendsBackToPlans | src/app/api/activate-free-plan/route.ts:13-16 | after free activation, the dashboard redirects to /plans and the profile shows Free without the manage button |
| Flows.FreeSelectionStaysOnDashboard | src/app/api/select-plan/route.ts:18-21 | after selecting FREE, the dashboard does not redirect and the profile shows Free |
| Flows.CheckoutMakesPremium | src/app/api/stripe/webhook/route.ts:44-51 | after a completed checkout, the profile shows Premium with the manage button |
| Flows.UnknownSessionUserStaysLoading | src/app/api/me/route.ts:12-21 | a session email with no user leaves the dashboard on its loading message |
| Flows.CreateAnswersFitPage | src/app/api/locations/route.ts:56 | every successful create answer carries the stored location |
| Flows.PageListFollowsServer | src/app/locations/page.tsx:67-69 | when the page's list equals the server's, an add keeps them equal |

## Left out

- `src/lib/weatherService.ts` and the weather API routes are parameters (`fetch`, `Geo`) that either answer or fail; `fetch` is given the city name alone, as both provider calls are, so places with the same city get the same weather (`WeatherPage.SameCitySameWeather`); provider fields other than those shown are not modelled.
- The checkout-session route, the customer portal route and the delete route `/api/locations/{id}` are not part of this model. The pages' removal takes that route's answer as a parameter, and no ownership check on delete is modelled.
- bcrypt, the payment provider's signature check and Google OAuth are parameters; `hash` is a deterministic function, so bcrypt's random salt is not modelled and equal passwords give equal stored hashes, but no result here depends on that, since the proofs use only that `compare(p, hash(p))` holds; the JWT lifetime (`maxAge`) is enforced by next-auth and not modelled.
- `Math.round`, `Date` and locale formatting, and `Math.random`: temperatures arrive as integers and dates as opaque strings or numbers.
- Concurrency: `Promise.all` is all-or-nothing over the places, in list order; the registration race between lookup and create (the database's unique constraint) is not modelled, so `Store.Db.CreateUser` requires the email to be new, as every caller checks first.
- ProfilePage.Avatar: upper-cases ASCII letters only and always gives one character; JavaScript's `toUpperCase` maps other letters too and can lengthen the result ("ß" becomes "SS"), and `charAt(0)` takes a UTF-16 code unit rather than a character, because full Unicode case mapping and UTF-16 are not modelled.
- RegisterPage.PasswordOk: counts characters, where JavaScript's `length` counts UTF-16 code units, so a password with characters outside the Basic Multilingual Plane (an emoji counts 2 in the browser) is shorter here than there.
- Text.ToLower: maps ASCII letters only, because JavaScript's full Unicode case mapping is not modelled; the whitespace set is ECMAScript's exactly.
- Request bodies are typed: malformed JSON and missing registration fields are not modelled.
- Row ids are natural-number counters rather than generated strings, the order of a user's locations is insertion order, and the schema default for the status is taken as absent.
- The picker's and pages' coordinates (`lat`, `lng`) are forwarded unchanged and not modelled; React rendering, focus state, the password-visibility toggle, timers and `router.push` are represented by returned values.
- LocationsPage.HandleAdd and NewLocationForm.HandleAdd require that an accepted JSON answer carries a location, as the create route's answers do (`Flows.CreateAnswersFitPage`); other accepted bodies are not modelled.

## Findings

| source | as written | input that shows it | evidently intended | confidence | as-written member | corrected member |
|---|---|---|---|---|---|---|
| src/app/locations/page.tsx:106 | the picker is rendered as `<LocationPicker onSelectLocation={setSelectedLocation} />`, but it reads `locations` and `onSelect` (src/components/LocationPicker.tsx:5-10), so it gets neither: typing a non-blank query calls `filter` on `undefined` and throws, no suggestion is ever listed, and `selectedLocation` is never set | type "a" in the search box; or type nothing and press Add Location, which alerts "Please select a location first." | pass the place catalog and `onSelect={setSelectedLocation}`, as src/components/NewLocationForm.tsx:96-99 does, so a clicked suggestion is selected and Add sends it | high; not executed | LocationsPage.AsWrittenAddOnlyAlerts | LocationsPage.IntendedClickIsSent |
