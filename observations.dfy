/** The daily entries the engine reads, and the calendar arithmetic on them.

    A date is a day number: consecutive calendar dates differ by one, so
    `addDays` is `+` and `diffDays` is `-`, and the lexicographic order of
    YYYY-MM-DD strings is the order of day numbers. The source's date-keyed
    record holds at most one entry per date and is read in date order, so the
    model takes it as a list of entries with strictly increasing days. */
module Observations {

  datatype Option<T> = None | Some(value: T)

  type Day = int

  /** Menstrual flow; only light, medium and heavy count as bleeding. */
  datatype Flow = Light | Medium | Heavy | Spotting

  datatype LhTest = Negative | Positive | Peak

  /** One day's record. `temperature` is in hundredths of a degree Celsius;
      `excludeTemp` marks a reading the user flagged as unreliable (absent
      counts as false). Mucus, intercourse, mood, symptoms and notes are not
      read by the engine and are not modelled. */
  datatype Entry = Entry(
    day: Day,
    temperature: Option<int>,
    excludeTemp: bool,
    period: Option<Flow>,
    lhTest: Option<LhTest>)

  function AddDays(d: Day, n: int): Day
  {
    d + n
  }

  /** The number of days from b to a; adding it to b gives back a. */
  function DiffDays(a: Day, b: Day): (r: int)
    ensures AddDays(b, r) == a
    ensures r >= 0 <==> b <= a
  {
    a - b
  }

  /** Entries listed in date order, one per date. */
  predicate Chronological(es: seq<Entry>)
  {
    forall i, j :: 0 <= i < j < |es| ==> es[i].day < es[j].day
  }

  /** `e.period && e.period !== 'spotting'`. */
  predicate HasFlow(e: Entry)
  {
    e.period.Some? && e.period.value != Spotting
  }

  /** `e.temperature` is truthy: present and not zero. */
  predicate HasTemperature(e: Entry)
  {
    e.temperature.Some? && e.temperature.value != 0
  }

  /** `e.lhTest === 'peak' || e.lhTest === 'positive'`. */
  predicate IsLhPositive(e: Entry)
  {
    e.lhTest == Some(Peak) || e.lhTest == Some(Positive)
  }

  lemma PrependChronological(h: Entry, t: seq<Entry>)
    requires Chronological(t)
    requires forall k :: 0 <= k < |t| ==> h.day < t[k].day
    ensures Chronological([h] + t)
  {
    var r := [h] + t;
    forall i, j | 0 <= i < j < |r|
      ensures r[i].day < r[j].day
    {
      assert r[j] == t[j - 1];
      if i > 0 { assert r[i] == t[i - 1]; }
    }
  }

  /** The entries of es that satisfy keep, in their original order. */
  function Select(es: seq<Entry>, keep: Entry -> bool): (r: seq<Entry>)
    ensures |r| <= |es|
    ensures forall e :: e in r <==> e in es && keep(e)
    ensures Chronological(es) ==> Chronological(r)
  {
    if |es| == 0 then []
    else
      var rest := Select(es[1..], keep);
      assert es == [es[0]] + es[1..];
      if keep(es[0]) then
        PrependEarliest(es, rest);
        [es[0]] + rest
      else
        rest
  }

  lemma PrependEarliest(es: seq<Entry>, rest: seq<Entry>)
    requires |es| > 0
    requires forall e :: e in rest ==> e in es[1..]
    requires Chronological(es) ==> Chronological(rest)
    ensures Chronological(es) ==> Chronological([es[0]] + rest)
  {
    if Chronological(es) {
      forall k | 0 <= k < |rest|
        ensures es[0].day < rest[k].day
      {
        assert rest[k] in es[1..];
      }
      PrependChronological(es[0], rest);
    }
  }

  /** The entries dated on or after start (`e.date >= currentStart`). */
  function Since(es: seq<Entry>, start: Day): (r: seq<Entry>)
    ensures forall e :: e in r <==> e in es && start <= e.day
    ensures Chronological(es) ==> Chronological(r)
  {
    Select(es, (e: Entry) => start <= e.day)
  }

  /** The entries dated in [lo, hi) (`e.date >= cycleStart && e.date < nextStart`). */
  function Between(es: seq<Entry>, lo: Day, hi: Day): (r: seq<Entry>)
    ensures forall e :: e in r <==> e in es && lo <= e.day < hi
    ensures Chronological(es) ==> Chronological(r)
  {
    Select(es, (e: Entry) => lo <= e.day < hi)
  }

  /** The entry recorded for day d (`entries[todayStr]`), if any. */
  function Lookup(es: seq<Entry>, d: Day): (r: Option<Entry>)
    ensures r.Some? ==> r.value in es && r.value.day == d
    ensures r.None? ==> forall k :: 0 <= k < |es| ==> es[k].day != d
    ensures Chronological(es) ==> forall k :: 0 <= k < |es| && es[k].day == d ==> r == Some(es[k])
  {
    if |es| == 0 then None
    else if es[0].day == d then Some(es[0])
    else
      var r := Lookup(es[1..], d);
      assert forall k :: 1 <= k < |es| ==> es[k] == es[1..][k - 1];
      r
  }

  /** The number of entries that carry a temperature, excluded or not
      (`cycleEntries.filter(e => e.temperature).length`). */
  function CountWithTemperature(es: seq<Entry>): (n: nat)
    ensures n == |set k | 0 <= k < |es| && HasTemperature(es[k])|
    decreases |es|
  {
    if |es| == 0 then 0
    else
      var last := |es| - 1;
      var before := CountWithTemperature(es[..last]);
      ghost var earlier := set k | 0 <= k < last && HasTemperature(es[..last][k]);
      assert earlier == set k | 0 <= k < last && HasTemperature(es[k]);
      if HasTemperature(es[last]) then
        assert (set k | 0 <= k < |es| && HasTemperature(es[k])) == earlier + {last};
        before + 1
      else
        assert (set k | 0 <= k < |es| && HasTemperature(es[k])) == earlier;
        before
  }
}
