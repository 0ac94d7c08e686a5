/** The saved-locations page: the initial load, adding the picked place and
    removing a saved one. */
module LocationsPage {
  import opened Common
  import opened Store
  import opened Http
  import opened ClientTypes
  import opened Text
  import LocationPicker

  /** The page's state; `alert` is the last message shown with `alert`. */
  datatype Page = Page(locations: seq<Location>, selected: Option<Selection>, loading: bool,
                       initialLoading: bool, alert: Option<string>)

  const Initial := Page([], None, false, true, None)
  const LoadFailed := "Error loading locations"
  const SelectFirst := "Please select a location first."
  const AddFallback := "Error adding location."
  const DeleteFallback := "Error deleting location."
  const Unexpected := "Something went wrong."

  /** The effect on mount: `listing` is the saved list, or `None` when the
      request fails or is refused. */
  function InitialLoad(p: Page, listing: Option<seq<Location>>): (r: Page)
    ensures !r.initialLoading && r.selected == p.selected && r.loading == p.loading
    ensures listing.Some? ==> r.locations == listing.value && r.alert == p.alert
    ensures listing.None? ==> r.locations == p.locations && r.alert == Some(LoadFailed)
  {
    match listing
    case Some(locs) => p.(locations := locs, initialLoading := false)
    case None => p.(alert := Some(LoadFailed), initialLoading := false)
  }

  /** A successful create answers with the stored row. */
  predicate CreateReply(reply: Option<Response>) {
    reply.Some? && reply.value.Ok() && IsJson(reply.value.body) ==> reply.value.body.LocationJson?
  }

  /** The page after `handleAddLocation` and the place it sent, if any.
      `reply` is the create answer, or `None` when the request fails. */
  datatype AddOutcome = AddOutcome(page: Page, sent: Option<Selection>)

  function HandleAdd(p: Page, reply: Option<Response>): (o: AddOutcome)
    requires CreateReply(reply)
    ensures p.selected.None? ==> o == AddOutcome(p.(alert := Some(SelectFirst)), None)
    ensures p.selected.Some? ==> o.sent == p.selected && !o.page.loading && o.page.initialLoading == p.initialLoading
    ensures p.selected.Some? && reply.Some? && reply.value.Ok() && IsJson(reply.value.body) ==>
              o.page.locations == p.locations + [reply.value.body.location] && o.page.selected.None? &&
              o.page.alert == p.alert
    ensures p.selected.Some? && reply.Some? && !reply.value.Ok() && IsJson(reply.value.body) ==>
              o.page.locations == p.locations && o.page.selected == p.selected &&
              o.page.alert == Some(ErrorOr(reply.value.body, AddFallback))
    ensures p.selected.Some? && (reply.None? || !IsJson(reply.value.body)) ==>
              o.page.locations == p.locations && o.page.selected == p.selected && o.page.alert == Some(Unexpected)
  {
    if p.selected.None? then AddOutcome(p.(alert := Some(SelectFirst)), None)
    else
      var done := p.(loading := false);
      var page :=
        if reply.None? || !IsJson(reply.value.body) then done.(alert := Some(Unexpected))
        else if !reply.value.Ok() then done.(alert := Some(ErrorOr(reply.value.body, AddFallback)))
        else done.(locations := p.locations + [reply.value.body.location], selected := None);
      AddOutcome(page, p.selected)
  }

  /** `prev.filter((loc) => loc.id !== id)`. */
  function RemoveById(locs: seq<Location>, id: nat): (r: seq<Location>)
    ensures forall i :: 0 <= i < |r| ==> r[i].id != id
    ensures forall i :: 0 <= i < |locs| && locs[i].id != id ==> locs[i] in r
    ensures forall l :: l in r ==> l in locs
    ensures IsSubsequence(r, locs)
  {
    Filter(locs, (l: Location) => l.id != id)
  }

  /** `handleRemoveLocation`: nothing happens unless the user confirms. */
  function HandleRemove(p: Page, id: nat, confirmed: bool, reply: Option<Response>): (r: Page)
    ensures !confirmed ==> r == p
    ensures confirmed && reply.Some? && reply.value.Ok() ==> r == p.(locations := RemoveById(p.locations, id))
    ensures confirmed && reply.Some? && !reply.value.Ok() && IsJson(reply.value.body) ==>
              r == p.(alert := Some(ErrorOr(reply.value.body, DeleteFallback)))
    ensures confirmed && (reply.None? || (!reply.value.Ok() && !IsJson(reply.value.body))) ==>
              r == p.(alert := Some(Unexpected))
  {
    if !confirmed then p
    else if reply.None? then p.(alert := Some(Unexpected))
    else if reply.value.Ok() then p.(locations := RemoveById(p.locations, id))
    else if !IsJson(reply.value.body) then p.(alert := Some(Unexpected))
    else p.(alert := Some(ErrorOr(reply.value.body, DeleteFallback)))
  }

  /** Removing the id of a location just added, when no saved location had
      that id, gives back the list from before the add. */
  lemma {:induction false} RemoveUndoesAdd(p: Page, reply: Option<Response>, confirmedReply: Option<Response>)
    requires CreateReply(reply) && p.selected.Some?
    requires reply.Some? && reply.value.Ok() && IsJson(reply.value.body)
    requires forall i :: 0 <= i < |p.locations| ==> p.locations[i].id != reply.value.body.location.id
    requires confirmedReply.Some? && confirmedReply.value.Ok()
    ensures var added := HandleAdd(p, reply).page;
      HandleRemove(added, reply.value.body.location.id, true, confirmedReply).locations == p.locations
  {
    var l := reply.value.body.location;
    var keep := (x: Location) => x.id != l.id;
    FilterAppend(p.locations, [l], keep);
    FilterKeepsAll(p.locations, keep);
  }

  /** How the page renders its picker: the place list it passes (`None` when
      it passes none) and whether it passes the `onSelect` callback. */
  datatype Wiring = Wiring(catalog: Option<seq<Selection>>, onSelect: bool)

  /** The page as written renders the picker with a prop the picker does not
      read (`onSelectLocation`), and so with neither `locations` nor `onSelect`. */
  const AsWritten := Wiring(None, false)

  /** The wiring the form component uses: the place catalog and a callback
      that stores the chosen place. */
  function Intended(catalog: seq<Selection>): Wiring {
    Wiring(Some(catalog), true)
  }

  /** What the user can do on the page. */
  datatype Event =
    | Type(text: string)
    | Click(index: nat)
    | Loaded(listing: Option<seq<Location>>)
    | AddClicked(reply: Option<Response>)
    | RemoveClicked(id: nat, confirmed: bool, reply: Option<Response>)

  /** The page together with its picker. */
  datatype Screen = Screen(page: Page, picker: LocationPicker.Picker)

  const Start := Screen(Initial, LocationPicker.Initial)

  /** The create answers the page is modelled for. */
  predicate Fits(e: Event) {
    e.AddClicked? ==> CreateReply(e.reply)
  }

  /** One event. `None` when the picker's effect throws: the error escapes
      the render and the page is gone. A click on a suggestion calls
      `onSelect` first; without it that call throws inside the handler and
      nothing after it runs. */
  function Step(w: Wiring, s: Screen, e: Event): (r: Option<Screen>)
    requires Fits(e)
    ensures r.None? <==> e.Type? && w.catalog.None? && Trim(e.text) != ""
    ensures r.Some? && r.value.page.selected.Some? && r.value.page.selected != s.page.selected ==>
              && e.Click? && w.onSelect && e.index < |s.picker.filtered|
              && r.value.page.selected == Some(s.picker.filtered[e.index])
    ensures e.Type? && r.Some? ==> r.value.page == s.page && r.value.picker.query == e.text
    ensures e.AddClicked? ==> r == Some(s.(page := HandleAdd(s.page, e.reply).page))
  {
    match e
    case Type(text) =>
      var refreshed := LocationPicker.RefreshWithProp(s.picker.(query := text), w.catalog);
      if refreshed.None? then None else Some(s.(picker := refreshed.value))
    case Click(i) =>
      if i < |s.picker.filtered| && w.onSelect then
        var loc := s.picker.filtered[i];
        Some(Screen(s.page.(selected := Some(loc)), LocationPicker.Select(s.picker, loc)))
      else Some(s)
    case Loaded(listing) => Some(s.(page := InitialLoad(s.page, listing)))
    case AddClicked(reply) => Some(s.(page := HandleAdd(s.page, reply).page))
    case RemoveClicked(id, confirmed, reply) => Some(s.(page := HandleRemove(s.page, id, confirmed, reply)))
  }

  /** A run of events from `s`; `None` once the page is gone. */
  function Run(w: Wiring, s: Screen, es: seq<Event>): Option<Screen>
    requires forall k :: 0 <= k < |es| ==> Fits(es[k])
    decreases |es|
  {
    if es == [] then Some(s)
    else
      match Step(w, s, es[0])
      case None => None
      case Some(t) => Run(w, t, es[1..])
  }

  /** Nothing chosen and nothing offered. */
  predicate NothingToAdd(s: Screen) {
    s.page.selected.None? && s.picker.filtered == []
  }

  /** As written, typing anything but blanks takes the page down. */
  lemma TypingBreaksAsWritten(s: Screen, text: string)
    requires Trim(text) != ""
    ensures Step(AsWritten, s, Type(text)).None?
  {
  }

  /** As written, no run of events ever offers a suggestion or sets a
      selection. */
  lemma {:induction false} AsWrittenNeverSelects(s: Screen, es: seq<Event>)
    requires NothingToAdd(s)
    requires forall k :: 0 <= k < |es| ==> Fits(es[k])
    ensures Run(AsWritten, s, es).Some? ==> NothingToAdd(Run(AsWritten, s, es).value)
    decreases |es|
  {
    if es != [] {
      var t := Step(AsWritten, s, es[0]);
      if t.Some? {
        assert NothingToAdd(t.value);
        assert forall k :: 0 <= k < |es[1..]| ==> es[1..][k] == es[k + 1];
        AsWrittenNeverSelects(t.value, es[1..]);
      }
    }
  }

  /** As written, whatever the user does first, Add only shows "Please select
      a location first." and sends nothing. */
  lemma AsWrittenAddOnlyAlerts(es: seq<Event>, reply: Option<Response>)
    requires forall k :: 0 <= k < |es| ==> Fits(es[k])
    requires CreateReply(reply)
    ensures var r := Run(AsWritten, Start, es);
      r.Some? ==> HandleAdd(r.value.page, reply) == AddOutcome(r.value.page.(alert := Some(SelectFirst)), None)
  {
    AsWrittenNeverSelects(Start, es);
  }

  /** Wired as intended, typing fills the suggestions with the search results. */
  lemma TypingSuggestsAsIntended(catalog: seq<Selection>, s: Screen, text: string)
    ensures Step(Intended(catalog), s, Type(text)) ==
              Some(s.(picker := LocationPicker.Picker(text, LocationPicker.Search(catalog, text))))
  {
  }

  /** With `onSelect` wired, clicking a listed suggestion selects it. */
  lemma ClickSelects(w: Wiring, s: Screen, i: nat)
    requires w.onSelect && i < |s.picker.filtered|
    ensures Step(w, s, Click(i)) ==
              Some(Screen(s.page.(selected := Some(s.picker.filtered[i])),
                          LocationPicker.Select(s.picker, s.picker.filtered[i])))
  {
  }

  /** Wired as intended, typing a query and clicking its `i`-th suggestion
      selects that place, and Add then sends it. */
  lemma IntendedClickIsSent(catalog: seq<Selection>, s: Screen, text: string, i: nat, reply: Option<Response>)
    requires CreateReply(reply)
    requires i < |LocationPicker.Search(catalog, text)|
    ensures var typed := Step(Intended(catalog), s, Type(text));
      && typed.Some?
      && var clicked := Step(Intended(catalog), typed.value, Click(i));
      && clicked.Some?
      && clicked.value.page.selected == Some(LocationPicker.Search(catalog, text)[i])
      && HandleAdd(clicked.value.page, reply).sent == Some(LocationPicker.Search(catalog, text)[i])
  {
    var found := LocationPicker.Search(catalog, text);
    TypingSuggestsAsIntended(catalog, s, text);
    var typed := s.(picker := LocationPicker.Picker(text, found));
    ClickSelects(Intended(catalog), typed, i);
    var clicked := Screen(typed.page.(selected := Some(found[i])), LocationPicker.Select(typed.picker, found[i]));
    assert HandleAdd(clicked.page, reply).sent == Some(found[i]);
  }
}
