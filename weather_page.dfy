/** The weather overview: the saved locations, the current weather and a
    daily forecast for each, stored under a `city-country` key. */
module WeatherPage {
  import opened Common
  import opened Store
  import Forecast

  /** What the provider answers for one city; temperatures are already rounded. */
  datatype RawCurrent = RawCurrent(temp: int, description: string, icon: string)
  datatype RawEntry = RawEntry(dtTxt: string, temp: int, icon: string)
  datatype RawWeather = RawWeather(current: RawCurrent, list: seq<RawEntry>)

  /** What the page keeps for one location. */
  datatype CurrentWeather = CurrentWeather(city: string, country: string, temp: int, condition: string, icon: string)
  datatype ForecastItem = ForecastItem(dt: string, temp: int, icon: string)
  datatype LocationWeather = LocationWeather(current: CurrentWeather, forecast: seq<ForecastItem>)
  datatype Keyed = Keyed(key: string, data: LocationWeather)

  const LoadError := "Error loading weather data"

  function IconUrl(code: string): string {
    "https://openweathermap.org/img/wn/" + code + "@2x.png"
  }

  /** The key a location's weather is stored and looked up under. */
  function KeyOf(loc: Location): (k: string)
    ensures |k| == |loc.city| + 1 + |loc.country|
    ensures k[..|loc.city|] == loc.city && k[|loc.city|] == '-' && k[|loc.city| + 1..] == loc.country
  {
    loc.city + "-" + loc.country
  }

  /** Two places with different cities can share a key when a name holds a
      hyphen, so one place's weather can be shown for the other. */
  lemma HyphenatedNamesShareKey()
    ensures KeyOf(Location(0, "A-B", "C", 0, false)) == KeyOf(Location(1, "A", "B-C", 0, false))
  {
  }

  function ItemOf(e: RawEntry): ForecastItem {
    ForecastItem(e.dtTxt, e.temp, IconUrl(e.icon))
  }

  /** One location's weather: current conditions and one forecast item per day. */
  function WeatherFor(loc: Location, raw: RawWeather): (w: LocationWeather)
    ensures w.current.city == loc.city && w.current.country == loc.country
    ensures w.current.temp == raw.current.temp && w.current.condition == raw.current.description
    ensures |w.forecast| == (|raw.list| + 7) / 8
    ensures forall k :: 0 <= k < |w.forecast| ==> 8 * k < |raw.list| && w.forecast[k] == ItemOf(raw.list[8 * k])
  {
    var days := Forecast.EveryEighth(raw.list);
    LocationWeather(
      CurrentWeather(loc.city, loc.country, raw.current.temp, raw.current.description, IconUrl(raw.current.icon)),
      seq(|days|, k requires 0 <= k < |days| => ItemOf(days[k])))
  }

  /** `Promise.all` over the locations: every fetch must succeed, otherwise
      the whole load fails. `fetch` stands for the two provider calls, which
      are made with the city name alone. */
  function FetchAll(locs: seq<Location>, fetch: string -> Option<RawWeather>): (r: Option<seq<Keyed>>)
    ensures r.Some? <==> forall i :: 0 <= i < |locs| ==> fetch(locs[i].city).Some?
    ensures r.Some? ==> |r.value| == |locs|
    ensures r.Some? ==>
      forall i :: 0 <= i < |locs| ==> r.value[i] == Keyed(KeyOf(locs[i]), WeatherFor(locs[i], fetch(locs[i].city).value))
  {
    if locs == [] then Some([])
    else
      match fetch(locs[0].city)
      case None => None
      case Some(raw) =>
        match FetchAll(locs[1..], fetch)
        case None => None
        case Some(rest) => Some([Keyed(KeyOf(locs[0]), WeatherFor(locs[0], raw))] + rest)
  }

  /** Two saved places with the same city get the same temperatures,
      conditions and forecast, whatever their countries: the provider is
      asked for the city only. */
  lemma SameCitySameWeather(locs: seq<Location>, fetch: string -> Option<RawWeather>, i: nat, j: nat)
    requires FetchAll(locs, fetch).Some? && i < |locs| && j < |locs| && locs[i].city == locs[j].city
    ensures var a := FetchAll(locs, fetch).value[i].data;
      var b := FetchAll(locs, fetch).value[j].data;
      a.forecast == b.forecast && a.current.temp == b.current.temp && a.current.condition == b.current.condition
  {
    var raw := fetch(locs[i].city).value;
    var wi := WeatherFor(locs[i], raw);
    var wj := WeatherFor(locs[j], raw);
    assert |wi.forecast| == |wj.forecast|;
    forall k | 0 <= k < |wi.forecast| ensures wi.forecast[k] == wj.forecast[k] {
    }
  }

  /** No later entry has the key of entry `i`. */
  predicate LastWithKey(entries: seq<Keyed>, i: int)
    requires 0 <= i < |entries|
  {
    forall j :: i < j < |entries| ==> entries[j].key != entries[i].key
  }

  /** The record the entries fill, one assignment after another. */
  function WeatherMap(entries: seq<Keyed>): (m: map<string, LocationWeather>)
    ensures forall i :: 0 <= i < |entries| ==> entries[i].key in m
  {
    if entries == [] then map[]
    else
      var init := entries[..|entries| - 1];
      var last := entries[|entries| - 1];
      assert forall i :: 0 <= i < |init| ==> init[i] == entries[i];
      WeatherMap(init)[last.key := last.data]
  }

  /** The record holds no key that no entry has. */
  lemma {:induction false} WeatherMapOnlyEntryKeys(entries: seq<Keyed>, k: string)
    requires k in WeatherMap(entries)
    ensures exists i :: 0 <= i < |entries| && entries[i].key == k
  {
    if entries != [] {
      var init := entries[..|entries| - 1];
      if k != entries[|entries| - 1].key {
        WeatherMapOnlyEntryKeys(init, k);
        var i :| 0 <= i < |init| && init[i].key == k;
        assert entries[i] == init[i];
      }
    }
  }

  /** Each key holds the data of the last entry with that key: a later
      location overwrites an earlier one. */
  lemma {:induction false} WeatherMapLastWins(entries: seq<Keyed>, i: nat)
    requires i < |entries| && LastWithKey(entries, i)
    ensures WeatherMap(entries)[entries[i].key] == entries[i].data
  {
    var init := entries[..|entries| - 1];
    if i < |init| {
      assert init[i] == entries[i];
      assert LastWithKey(init, i);
      WeatherMapLastWins(init, i);
    }
  }

  /** The `forEach` that fills `weatherObj`. */
  method BuildWeatherMap(entries: seq<Keyed>) returns (m: map<string, LocationWeather>)
    ensures m == WeatherMap(entries)
  {
    m := map[];
    var n := 0;
    while n < |entries|
      invariant 0 <= n <= |entries|
      invariant m == WeatherMap(entries[..n])
    {
      assert entries[..n + 1][..n] == entries[..n];
      m := m[entries[n].key := entries[n].data];
      n := n + 1;
    }
    assert entries[..n] == entries;
  }

  /** The page's state. */
  datatype Page = Page(locations: seq<Location>, weather: map<string, LocationWeather>, loading: bool, alert: Option<string>)

  const Initial := Page([], map[], true, None)

  /** `loadWeather`. `listing` is the location list, or `None` when that
      request fails. The list is stored before the weather is fetched, so a
      failed weather fetch leaves the list and an empty record. */
  method LoadWeather(listing: Option<seq<Location>>, fetch: string -> Option<RawWeather>) returns (page: Page)
    ensures !page.loading
    ensures listing.None? ==> page == Page([], map[], false, Some(LoadError))
    ensures listing.Some? ==> page.locations == listing.value
    ensures listing.Some? && FetchAll(listing.value, fetch).None? ==>
              page.weather == map[] && page.alert == Some(LoadError)
    ensures listing.Some? && FetchAll(listing.value, fetch).Some? ==>
              page.weather == WeatherMap(FetchAll(listing.value, fetch).value) && page.alert.None?
  {
    page := Initial;
    if listing.None? {
      page := page.(alert := Some(LoadError), loading := false);
      return;
    }
    page := page.(locations := listing.value);
    var entries := FetchAll(listing.value, fetch);
    if entries.None? {
      page := page.(alert := Some(LoadError), loading := false);
      return;
    }
    var m := BuildWeatherMap(entries.value);
    page := page.(weather := m, loading := false);
  }

  /** One card of the grid. */
  datatype Card = Card(location: Location, data: LocationWeather)

  /** The test the grid applies to a location: its key has weather. */
  function HasData(weather: map<string, LocationWeather>): Location -> bool {
    (l: Location) => KeyOf(l) in weather
  }

  /** The locations the cards are drawn for, in order. */
  function CardLocations(cards: seq<Card>): (r: seq<Location>)
    ensures |r| == |cards| && forall k :: 0 <= k < |cards| ==> r[k] == cards[k].location
  {
    seq(|cards|, k requires 0 <= k < |cards| => cards[k].location)
  }

  /** The grid: one card per location whose key has weather, in list order. */
  function Cards(locs: seq<Location>, weather: map<string, LocationWeather>): (r: seq<Card>)
    ensures CardLocations(r) == Filter(locs, HasData(weather))
    ensures forall i :: 0 <= i < |r| ==>
              KeyOf(r[i].location) in weather && r[i].data == weather[KeyOf(r[i].location)]
  {
    if locs == [] then []
    else
      var rest := Cards(locs[1..], weather);
      var r := if KeyOf(locs[0]) in weather then [Card(locs[0], weather[KeyOf(locs[0])])] + rest else rest;
      CardsStep(locs, weather, rest, r);
      r
  }

  /** One step of `Cards`: a card for the head, when its key has weather,
      followed by the cards of the tail, follows the filtered list. */
  lemma CardsStep(locs: seq<Location>, weather: map<string, LocationWeather>, rest: seq<Card>, r: seq<Card>)
    requires locs != [] && CardLocations(rest) == Filter(locs[1..], HasData(weather))
    requires r == if KeyOf(locs[0]) in weather then [Card(locs[0], weather[KeyOf(locs[0])])] + rest else rest
    ensures CardLocations(r) == Filter(locs, HasData(weather))
  {
    if KeyOf(locs[0]) in weather {
      assert CardLocations(r) == [locs[0]] + CardLocations(rest);
    }
  }

  /** Every location whose key has weather gets a card showing that weather. */
  lemma KeyedLocationHasCard(locs: seq<Location>, weather: map<string, LocationWeather>, i: nat)
    requires i < |locs| && KeyOf(locs[i]) in weather
    ensures Card(locs[i], weather[KeyOf(locs[i])]) in Cards(locs, weather)
  {
    var r := Cards(locs, weather);
    assert HasData(weather)(locs[i]);
    var k :| 0 <= k < |r| && CardLocations(r)[k] == locs[i];
    assert r[k] == Card(locs[i], weather[KeyOf(locs[i])]);
  }

  /** When every location's key has weather, every location gets a card. */
  lemma AllKeyedGivesEveryCard(locs: seq<Location>, weather: map<string, LocationWeather>)
    requires forall i :: 0 <= i < |locs| ==> KeyOf(locs[i]) in weather
    ensures CardLocations(Cards(locs, weather)) == locs
  {
    FilterKeepsAll(locs, HasData(weather));
  }

  /** When no location's key has weather, the grid is empty. */
  lemma NoKeyGivesNoCard(locs: seq<Location>, weather: map<string, LocationWeather>)
    requires forall i :: 0 <= i < |locs| ==> KeyOf(locs[i]) !in weather
    ensures Cards(locs, weather) == []
  {
  }

  datatype View = LoadingView | NoLocationsView | GridView(cards: seq<Card>)

  function Render(p: Page): (v: View)
    ensures p.loading ==> v == LoadingView
    ensures !p.loading && p.locations == [] ==> v == NoLocationsView
    ensures !p.loading && p.locations != [] ==> v == GridView(Cards(p.locations, p.weather))
  {
    if p.loading then LoadingView
    else if p.locations == [] then NoLocationsView
    else GridView(Cards(p.locations, p.weather))
  }

  /** After a full load every location has a card, and a location whose key
      is shared with later ones shows the weather fetched for the last of them. */
  lemma {:induction false} CardShowsLastSharer(locs: seq<Location>, fetch: string -> Option<RawWeather>, i: nat, j: nat)
    requires FetchAll(locs, fetch).Some?
    requires i <= j < |locs| && KeyOf(locs[j]) == KeyOf(locs[i])
    requires forall k :: j < k < |locs| ==> KeyOf(locs[k]) != KeyOf(locs[i])
    ensures var weather := WeatherMap(FetchAll(locs, fetch).value);
      CardLocations(Cards(locs, weather)) == locs &&
      Card(locs[i], WeatherFor(locs[j], fetch(locs[j].city).value)) in Cards(locs, weather)
  {
    var entries := FetchAll(locs, fetch).value;
    var weather := WeatherMap(entries);
    assert LastWithKey(entries, j);
    WeatherMapLastWins(entries, j);
    forall k | 0 <= k < |locs| ensures KeyOf(locs[k]) in weather {
      assert entries[k].key == KeyOf(locs[k]);
    }
    AllKeyedGivesEveryCard(locs, weather);
    KeyedLocationHasCard(locs, weather, i);
  }

  /** When a weather fetch fails the list is kept but no card has data, so the
      grid is empty rather than the "no locations" message. */
  lemma FailedFetchShowsEmptyGrid(locs: seq<Location>)
    requires locs != []
    ensures Render(Page(locs, map[], false, Some(LoadError))) == GridView([])
  {
    NoKeyGivesNoCard(locs, map[]);
  }
}
