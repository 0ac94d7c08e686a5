/** The forecast selections the weather and dashboard pages make from the
    provider's five-day list of three-hour entries. */
module Forecast {
  import opened Common

  /** `list.filter((_, i) => i % 8 === 0)`: one entry per 24 hours, starting
      with the first. */
  function EveryEighth<T>(xs: seq<T>): (r: seq<T>)
    ensures |r| == (|xs| + 7) / 8
    ensures forall k :: 0 <= k < |r| ==> 8 * k < |xs| && r[k] == xs[8 * k]
    decreases |xs|
  {
    if xs == [] then [] else [xs[0]] + EveryEighth(xs[Min(8, |xs|)..])
  }

  /** Every entry at an index divisible by 8 is kept, at position index / 8, so
      the selection holds exactly those entries and in their original order. */
  lemma EveryEighthKeepsMultiples<T>(xs: seq<T>, i: nat)
    requires i < |xs| && i % 8 == 0
    ensures i / 8 < |EveryEighth(xs)| && EveryEighth(xs)[i / 8] == xs[i]
  {
    assert 8 * (i / 8) == i;
  }

  /** The dashboard's daily cards: every eighth entry, at most five of them. */
  function Daily<T>(xs: seq<T>): (r: seq<T>)
    ensures |r| == Min(5, (|xs| + 7) / 8)
    ensures forall k :: 0 <= k < |r| ==> 8 * k < |xs| && r[k] == xs[8 * k]
  {
    var days := EveryEighth(xs);
    days[..Min(5, |days|)]
  }

  /** The dashboard's hourly strip: `list.slice(0, 8)`. */
  function Hourly<T>(xs: seq<T>): (r: seq<T>)
    ensures |r| == Min(8, |xs|)
    ensures forall k :: 0 <= k < |r| ==> r[k] == xs[k]
  {
    xs[..Min(8, |xs|)]
  }

  /** The first daily card and the first hourly entry are the same entry, and
      a list of at most eight entries yields a single daily card. */
  lemma DailyAndHourlyStartTogether<T>(xs: seq<T>)
    requires xs != []
    ensures Daily(xs)[0] == Hourly(xs)[0]
    ensures |xs| <= 8 ==> |Daily(xs)| == 1
  {
  }
}
