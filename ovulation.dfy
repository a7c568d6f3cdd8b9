/** Retrospective confirmation of ovulation from basal body temperature (the
    "3-over-6" thermal-shift rule), and extraction of positive ovulation-test
    dates (src/lib/cycle-calculations.ts, `confirmOvulationBBT` and
    `findLHPeaks`). */
module Ovulation {
  import opened Observations

  /** A usable temperature reading: its date and value in hundredths of a
      degree Celsius. */
  datatype Reading = Reading(day: Day, temp: int)

  /** The detector's verdict: not confirmed, or confirmed with the ovulation
      date (the day before the first elevated reading), the coverline (the
      baseline temperature) and the date of the first elevated reading. */
  datatype Bbt = NotConfirmed | Confirmed(ovulation: Day, coverline: int, firstHigh: Day)

  /** A reading counts when a temperature is present and not excluded
      (`e.temperature && !e.excludeTemp`). */
  predicate IsValidTemp(e: Entry)
  {
    HasTemperature(e) && !e.excludeTemp
  }

  /** The valid readings of a cycle, in the cycle's order. */
  function ValidReadings(es: seq<Entry>): (v: seq<Reading>)
    ensures |v| <= |es|
  {
    if |es| == 0 then []
    else
      var head := if IsValidTemp(es[0]) then [Reading(es[0].day, es[0].temperature.value)] else [];
      head + ValidReadings(es[1..])
  }

  /** The valid readings are exactly the valid entries, in order, each as its
      date and temperature. */
  lemma {:induction false} ValidReadingsAreValidEntries(es: seq<Entry>)
    ensures |ValidReadings(es)| == |Select(es, IsValidTemp)|
    ensures forall k :: 0 <= k < |ValidReadings(es)| ==>
      Select(es, IsValidTemp)[k].temperature == Some(ValidReadings(es)[k].temp) &&
      Select(es, IsValidTemp)[k].day == ValidReadings(es)[k].day
  {
    if |es| > 0 {
      ValidReadingsAreValidEntries(es[1..]);
      var sel := Select(es[1..], IsValidTemp);
      var rest := ValidReadings(es[1..]);
      if IsValidTemp(es[0]) {
        assert Select(es, IsValidTemp) == [es[0]] + sel;
        assert ValidReadings(es) == [Reading(es[0].day, es[0].temperature.value)] + rest;
      } else {
        assert Select(es, IsValidTemp) == sel;
        assert ValidReadings(es) == [] + rest;
      }
    }
  }

  /** The highest temperature of a non-empty window (`Math.max(...)`). */
  function MaxTemp(w: seq<Reading>): (m: int)
    requires |w| > 0
    ensures forall k :: 0 <= k < |w| ==> w[k].temp <= m
    ensures exists k :: 0 <= k < |w| && w[k].temp == m
  {
    if |w| == 1 then w[0].temp
    else
      var rest := MaxTemp(w[1..]);
      assert forall k :: 1 <= k < |w| ==> w[k] == w[1..][k - 1];
      if w[0].temp >= rest then w[0].temp else rest
  }

  /** The coverline for a candidate shift at index i: the highest of the six
      readings before it. */
  function Baseline(v: seq<Reading>, i: int): int
    requires 6 <= i <= |v|
  {
    MaxTemp(v[i - 6..i])
  }

  /** The shift rule at index i: the three readings v[i], v[i+1], v[i+2] all
      lie above the baseline, and either the third is at least 0.15 degrees
      above it or all three are at least 0.05 degrees above it. */
  predicate IsShift(v: seq<Reading>, i: int)
    requires 6 <= i && i + 3 <= |v|
  {
    var b := Baseline(v, i);
    v[i].temp > b && v[i + 1].temp > b && v[i + 2].temp > b &&
    (v[i + 2].temp >= b + 15 ||
     (v[i].temp >= b + 5 && v[i + 1].temp >= b + 5 && v[i + 2].temp >= b + 5))
  }

  /** The first index from i on at which the shift rule holds. */
  function FirstShift(v: seq<Reading>, i: int): (r: Option<int>)
    requires 6 <= i
    ensures r.Some? ==> i <= r.value && r.value + 3 <= |v| && IsShift(v, r.value)
    ensures r.Some? ==> forall k :: i <= k < r.value ==> !IsShift(v, k)
    ensures r.None? ==> forall k :: i <= k && k + 3 <= |v| ==> !IsShift(v, k)
    decreases |v| - i
  {
    if i + 3 > |v| then None
    else if IsShift(v, i) then Some(i)
    else FirstShift(v, i + 1)
  }

  /** `confirmOvulationBBT`: the first-match scan, as a function of the
      cycle's entries. */
  function Detect(cycle: seq<Entry>): Bbt
  {
    var v := ValidReadings(cycle);
    if |v| < 9 then NotConfirmed
    else
      match FirstShift(v, 6)
      case None => NotConfirmed
      case Some(i) => Confirmed(v[i].day - 1, Baseline(v, i), v[i].day)
  }

  /** The earliest window of the scan: the rule holds at i and at no index
      from 6 up to i. */
  predicate IsFirstShift(v: seq<Reading>, i: int)
  {
    6 <= i && i + 3 <= |v| && IsShift(v, i) &&
    forall k :: 6 <= k < i ==> !IsShift(v, k)
  }

  /** Fewer than nine valid readings never confirm. */
  lemma DetectNeedsNineReadings(cycle: seq<Entry>)
    requires |ValidReadings(cycle)| < 9
    ensures Detect(cycle) == NotConfirmed
  {
  }

  /** The coverline is the highest of the six readings before the shift. */
  lemma BaselineIsMax(v: seq<Reading>, i: int)
    requires 6 <= i <= |v|
    ensures forall k :: i - 6 <= k < i ==> v[k].temp <= Baseline(v, i)
    ensures exists k :: i - 6 <= k < i && v[k].temp == Baseline(v, i)
  {
    var w := v[i - 6..i];
    assert forall k :: i - 6 <= k < i ==> v[k] == w[k - (i - 6)];
    var j :| 0 <= j < |w| && w[j].temp == MaxTemp(w);
    assert v[j + i - 6].temp == Baseline(v, i);
  }

  /** A confirmation comes from the earliest qualifying window i: the first
      elevated reading is v[i], the ovulation date is the day before it and
      the coverline is the baseline of that window. */
  lemma DetectConfirmed(cycle: seq<Entry>)
    requires Detect(cycle).Confirmed?
    ensures var v := ValidReadings(cycle);
      9 <= |v| &&
      exists i :: IsFirstShift(v, i) &&
        Detect(cycle) == Confirmed(v[i].day - 1, Baseline(v, i), v[i].day)
  {
    var v := ValidReadings(cycle);
    var i := FirstShift(v, 6).value;
    assert IsFirstShift(v, i);
  }

  /** Not confirmed means that no window qualifies (or there are fewer than
      nine readings). */
  lemma DetectNotConfirmed(cycle: seq<Entry>)
    requires Detect(cycle) == NotConfirmed
    ensures var v := ValidReadings(cycle);
      |v| < 9 || forall i :: 6 <= i && i + 3 <= |v| ==> !IsShift(v, i)
  {
  }

  /** The scan itself: a sliding window with an early return. */
  method ConfirmOvulation(cycle: seq<Entry>) returns (r: Bbt)
    ensures r == Detect(cycle)
  {
    var valid := ValidReadings(cycle);
    if |valid| < 9 {
      return NotConfirmed;
    }
    var i := 6;
    while i < |valid| - 2
      invariant 6 <= i <= |valid| - 2
      invariant FirstShift(valid, i) == FirstShift(valid, 6)
    {
      var baseline := MaxTemp(valid[i - 6..i]);
      var next3 := valid[i..i + 3];
      var allAbove := next3[0].temp > baseline && next3[1].temp > baseline && next3[2].temp > baseline;
      var allAboveMargin := next3[0].temp >= baseline + 5 && next3[1].temp >= baseline + 5 && next3[2].temp >= baseline + 5;
      if allAbove && (next3[2].temp >= baseline + 15 || allAboveMargin) {
        assert IsShift(valid, i);
        return Confirmed(valid[i].day - 1, baseline, valid[i].day);
      }
      assert !IsShift(valid, i);
      i := i + 1;
    }
    return NotConfirmed;
  }

  /** `findLHPeaks`: the dates of positive or peak ovulation tests, in the
      cycle's order. */
  function LhPeaks(es: seq<Entry>): (r: seq<Day>)
    ensures forall k :: 0 <= k < |r| ==> exists j :: 0 <= j < |es| && IsLhPositive(es[j]) && es[j].day == r[k]
    ensures forall j :: 0 <= j < |es| && IsLhPositive(es[j]) ==> es[j].day in r
  {
    if |es| == 0 then []
    else
      var rest := LhPeaks(es[1..]);
      assert forall j :: 1 <= j < |es| ==> es[j] == es[1..][j - 1];
      var r := (if IsLhPositive(es[0]) then [es[0].day] else []) + rest;
      assert forall k :: 0 <= k < |rest| ==> rest[k] == r[k + |r| - |rest|];
      r
  }

  predicate StrictlyIncreasing(s: seq<int>)
  {
    forall i, j :: 0 <= i < j < |s| ==> s[i] < s[j]
  }

  lemma PrependIncreasing(h: int, t: seq<int>)
    requires StrictlyIncreasing(t)
    requires forall k :: 0 <= k < |t| ==> h < t[k]
    ensures StrictlyIncreasing([h] + t)
  {
    var r := [h] + t;
    forall i, j | 0 <= i < j < |r|
      ensures r[i] < r[j]
    {
      assert r[j] == t[j - 1];
      if i > 0 { assert r[i] == t[i - 1]; }
    }
  }

  /** The last element of a strictly increasing sequence is its largest. */
  lemma LastIsLargest(s: seq<int>)
    requires StrictlyIncreasing(s)
    requires |s| > 0
    ensures forall x :: x in s ==> x <= s[|s| - 1]
  {
    forall x | x in s
      ensures x <= s[|s| - 1]
    {
      var k :| 0 <= k < |s| && s[k] == x;
      if k < |s| - 1 {
        assert s[k] < s[|s| - 1];
      }
    }
  }

  lemma {:induction false} LhPeaksAfter(es: seq<Entry>, d: Day)
    requires forall j :: 0 <= j < |es| ==> d < es[j].day
    ensures forall k :: 0 <= k < |LhPeaks(es)| ==> d < LhPeaks(es)[k]
  {
    if |es| > 0 {
      LhPeaksAfter(es[1..], d);
    }
  }

  /** Over entries in date order, the peak dates are strictly increasing. */
  lemma {:induction false} LhPeaksIncreasing(es: seq<Entry>)
    requires Chronological(es)
    ensures StrictlyIncreasing(LhPeaks(es))
  {
    if |es| > 0 {
      var tail := es[1..];
      forall i, j | 0 <= i < j < |tail|
        ensures tail[i].day < tail[j].day
      {
        assert tail[i] == es[i + 1] && tail[j] == es[j + 1];
      }
      LhPeaksIncreasing(tail);
      forall j | 0 <= j < |tail|
        ensures es[0].day < tail[j].day
      {
        assert tail[j] == es[j + 1];
      }
      LhPeaksAfter(tail, es[0].day);
      if IsLhPositive(es[0]) {
        PrependIncreasing(es[0].day, LhPeaks(tail));
      } else {
        assert LhPeaks(es) == [] + LhPeaks(tail) == LhPeaks(tail);
      }
    }
  }

  /** The latest peak (the last element) is at or after every positive test. */
  lemma LatestPeakIsLatest(es: seq<Entry>)
    requires Chronological(es)
    requires |LhPeaks(es)| > 0
    ensures var r := LhPeaks(es);
      forall j :: 0 <= j < |es| && IsLhPositive(es[j]) ==> es[j].day <= r[|r| - 1]
  {
    LhPeaksIncreasing(es);
    LastIsLargest(LhPeaks(es));
  }

  // -------------------------------------------------------------------
  // A worked example: nine days at 36.20 followed by four days at 36.60.
  // -------------------------------------------------------------------

  /** n consecutive days from day d, each with the valid reading t. */
  function Plateau(d: Day, n: nat, t: int): (r: seq<Entry>)
    requires t != 0
    ensures |r| == n
    ensures forall k :: 0 <= k < n ==> r[k] == Entry(d + k, Some(t), false, None, None)
    decreases n
  {
    if n == 0 then [] else [Entry(d, Some(t), false, None, None)] + Plateau(d + 1, n - 1, t)
  }

  function ClearShiftCycle(): seq<Entry>
  {
    Plateau(1, 9, 3620) + Plateau(10, 4, 3660)
  }

  lemma {:induction false} AllValidReadings(es: seq<Entry>)
    requires forall k :: 0 <= k < |es| ==> IsValidTemp(es[k])
    ensures |ValidReadings(es)| == |es|
    ensures forall k :: 0 <= k < |es| ==>
      es[k].day == ValidReadings(es)[k].day && es[k].temperature == Some(ValidReadings(es)[k].temp)
  {
    if |es| > 0 {
      AllValidReadings(es[1..]);
    }
  }

  lemma FlatBaseline(v: seq<Reading>, i: int, t: int)
    requires 6 <= i <= |v|
    requires forall k :: i - 6 <= k < i ==> v[k].temp == t
    ensures Baseline(v, i) == t
  {
    BaselineIsMax(v, i);
  }

  /** The readings of the example: nine at 36.20, then four at 36.60. */
  lemma ClearShiftReadings(v: seq<Reading>)
    requires v == ValidReadings(ClearShiftCycle())
    ensures |v| == 13
    ensures forall k :: 0 <= k < 13 ==> v[k].day == k + 1
    ensures forall k :: 0 <= k < 9 ==> v[k].temp == 3620
    ensures forall k :: 9 <= k < 13 ==> v[k].temp == 3660
  {
    var c := ClearShiftCycle();
    assert |c| == 13;
    assert forall k :: 0 <= k < 9 ==> c[k] == Entry(1 + k, Some(3620), false, None, None);
    assert forall k :: 9 <= k < 13 ==> c[k] == Entry(1 + k, Some(3660), false, None, None);
    AllValidReadings(c);
  }

  /** A rise of 0.40 degrees after day 9 confirms ovulation on day 9 with a
      coverline of 36.20. */
  lemma ClearShiftConfirms()
    ensures Detect(ClearShiftCycle()) == Confirmed(9, 3620, 10)
  {
    var v := ValidReadings(ClearShiftCycle());
    ClearShiftReadings(v);
    FlatBaseline(v, 6, 3620);
    FlatBaseline(v, 7, 3620);
    FlatBaseline(v, 8, 3620);
    FlatBaseline(v, 9, 3620);
    assert !IsShift(v, 6);
    assert !IsShift(v, 7);
    assert !IsShift(v, 8);
    assert IsShift(v, 9);
    assert FirstShift(v, 9) == Some(9);
    assert FirstShift(v, 8) == Some(9);
    assert FirstShift(v, 7) == Some(9);
    assert FirstShift(v, 6) == Some(9);
  }
}
