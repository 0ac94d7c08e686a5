/** The search box that suggests places whose city or country contains the
    query, ignoring case. */
module LocationPicker {
  import opened Common
  import opened Text
  import opened ClientTypes

  /** The picker's state: the text typed and the suggestions shown. */
  datatype Picker = Picker(query: string, filtered: seq<Selection>)

  const Initial := Picker("", [])

  /** A place matches when its lower-cased city or country contains the
      lower-cased query; the query is not trimmed for this test. */
  predicate Matches(loc: Selection, query: string) {
    Includes(ToLower(loc.city), ToLower(query)) || Includes(ToLower(loc.country), ToLower(query))
  }

  /** The suggestions for `query`: none for a blank query, otherwise the
      matching places in their original order. */
  function Search(locations: seq<Selection>, query: string): (r: seq<Selection>)
    ensures Trim(query) == "" ==> r == []
    ensures forall i :: 0 <= i < |r| ==> Matches(r[i], query) && r[i] in locations
    ensures Trim(query) != "" ==> forall i :: 0 <= i < |locations| && Matches(locations[i], query) ==> locations[i] in r
    ensures IsSubsequence(r, locations) && |r| <= |locations|
  {
    if Trim(query) == "" then []
    else Filter(locations, (loc: Selection) => Matches(loc, query))
  }

  /** A blank query is one made only of whitespace. */
  lemma BlankQueryShowsNothing(locations: seq<Selection>, query: string)
    requires forall i :: 0 <= i < |query| ==> IsWhitespace(query[i])
    ensures Search(locations, query) == []
  {
    TrimEmptyIffBlank(query);
  }

  /** Every suggestion contains the query, at some position, in its city or
      its country. */
  lemma SuggestionContainsQuery(locations: seq<Selection>, query: string, loc: Selection)
    requires loc in Search(locations, query)
    ensures (exists i :: OccursAt(ToLower(loc.city), ToLower(query), i)) ||
            (exists i :: OccursAt(ToLower(loc.country), ToLower(query), i))
  {
    var r := Search(locations, query);
    var k :| 0 <= k < |r| && r[k] == loc;
    IncludesIffOccurs(ToLower(loc.city), ToLower(query));
    IncludesIffOccurs(ToLower(loc.country), ToLower(query));
  }

  /** The effect that runs whenever the query or the place list changes. */
  function Refresh(p: Picker, locations: seq<Selection>): (r: Picker)
    ensures r.query == p.query && r.filtered == Search(locations, p.query)
  {
    p.(filtered := Search(locations, p.query))
  }

  /** The effect when the component may be rendered without its `locations`
      prop (`None`). A blank query still clears the suggestions; any other
      query calls `filter` on `undefined`, which throws, so the effect ends
      without a new state (`None`). */
  function RefreshWithProp(p: Picker, locations: Option<seq<Selection>>): (r: Option<Picker>)
    ensures r.None? <==> locations.None? && Trim(p.query) != ""
    ensures locations.Some? ==> r == Some(Refresh(p, locations.value))
    ensures locations.None? && r.Some? ==> r.value.query == p.query && r.value.filtered == []
  {
    match locations
    case Some(locs) => Some(Refresh(p, locs))
    case None => if Trim(p.query) == "" then Some(p.(filtered := [])) else None
  }

  /** The text the box shows once `loc` is chosen. */
  function SelectionText(loc: Selection): (r: string)
    ensures |r| == |loc.city| + 2 + |loc.country|
    ensures r[..|loc.city|] == loc.city && r[|loc.city| + 2..] == loc.country
  {
    loc.city + ", " + loc.country
  }

  /** Clicking a suggestion: the place is handed to the page, the box shows
      "city, country" and the suggestions close. */
  function Select(p: Picker, loc: Selection): (r: Picker)
    ensures r.query == SelectionText(loc) && r.filtered == []
  {
    Picker(SelectionText(loc), [])
  }

  /** A place can only match a query no longer than its city or its country. */
  lemma MatchNeedsLongName(loc: Selection, query: string)
    requires Matches(loc, query)
    ensures |query| <= |loc.city| || |query| <= |loc.country|
  {
    assert |ToLower(query)| == |query|;
    assert |ToLower(loc.city)| == |loc.city| && |ToLower(loc.country)| == |loc.country|;
  }

  /** Every suggestion has a city or a country at least as long as the query. */
  lemma SuggestionsHaveLongNames(locations: seq<Selection>, query: string)
    ensures var r := Search(locations, query);
      forall i :: 0 <= i < |r| ==> |query| <= |r[i].city| || |query| <= |r[i].country|
  {
    var r := Search(locations, query);
    forall i | 0 <= i < |r| ensures |query| <= |r[i].city| || |query| <= |r[i].country| {
      MatchNeedsLongName(r[i], query);
    }
  }

  /** After a choice the effect runs again with the new text. The chosen place
      is never suggested again, since the text is longer than its city and its
      country; nor is any place whose city and country are both that short. */
  lemma ChosenPlaceNotRelisted(p: Picker, locations: seq<Selection>, loc: Selection)
    ensures var after := Refresh(Select(p, loc), locations);
      forall i :: 0 <= i < |after.filtered| ==>
        |after.filtered[i].city| > |loc.city| + 1 + |loc.country| ||
        |after.filtered[i].country| > |loc.city| + 1 + |loc.country|
    ensures loc !in Refresh(Select(p, loc), locations).filtered
  {
    SuggestionsHaveLongNames(locations, SelectionText(loc));
  }
}
