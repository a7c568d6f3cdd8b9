/** Retrospective cycle statistics (src/lib/cycle-calculations.ts,
    `analyzeHistory`): the accepted cycle starts, the cycle lengths between
    them, and the luteal lengths that the temperature detector finds in past
    cycles. */
module History {
  import opened Numbers
  import opened Observations
  import opened Ovulation

  /** `CycleStatistics`. Means are exact rationals and the standard deviation
      is the exact square root of a rational. */
  datatype Stats = Stats(
    avgCycleLength: Ratio,
    medianCycleLength: int,
    stdDevCycleLength: Root,
    avgLutealLength: Ratio,
    medianLutealLength: int,
    historyCount: nat)

  const MinStartGap := 20
  const MinCycleLength := 15
  const MaxCycleLength := 90
  const MinLuteal := 9
  const MaxLuteal := 18

  /** The statistics used while fewer than two cycle lengths are known:
      28-day cycles with a standard deviation of 3 and a 14-day luteal phase. */
  function DefaultStats(count: nat): Stats
  {
    Stats(Ratio(28, 1), 28, SqrtOf(9, 1), Ratio(14, 1), 14, count)
  }

  // -------------------------------------------------------------------
  // Cycle starts
  // -------------------------------------------------------------------

  /** Entry i opens a new bleeding episode: it has flow, and it is the first
      entry, or the entry before it has no flow, or that entry lies more than
      8 days back. */
  predicate IsStartCandidate(es: seq<Entry>, i: int)
    requires 0 <= i < |es|
  {
    HasFlow(es[i]) && (i == 0 || !HasFlow(es[i - 1]) || DiffDays(es[i].day, es[i - 1].day) > 8)
  }

  /** Whether a candidate on day d is accepted after the starts s: there is
      no earlier start, or the last one is at least 20 days back. */
  predicate FarEnough(s: seq<Day>, d: Day)
  {
    |s| == 0 || DiffDays(d, s[|s| - 1]) >= MinStartGap
  }

  /** The cycle starts accepted among the first n entries: consecutive
      starts are at least 20 days apart. */
  function StartsUpTo(es: seq<Entry>, n: int): (r: seq<Day>)
    requires 0 <= n <= |es|
    ensures forall k :: 0 <= k < |r| - 1 ==> r[k + 1] - r[k] >= MinStartGap
    ensures |r| <= n
    decreases n
  {
    if n == 0 then []
    else
      var s := StartsUpTo(es, n - 1);
      if IsStartCandidate(es, n - 1) && FarEnough(s, es[n - 1].day) then s + [es[n - 1].day] else s
  }

  function CycleStarts(es: seq<Entry>): seq<Day>
  {
    StartsUpTo(es, |es|)
  }

  /** Every start accepted among the first n entries is the date of a
      candidate entry among them. */
  lemma {:induction false} StartsAreCandidates(es: seq<Entry>, n: int)
    requires 0 <= n <= |es|
    ensures forall k :: 0 <= k < |StartsUpTo(es, n)| ==>
      exists j :: 0 <= j < n && IsStartCandidate(es, j) && es[j].day == StartsUpTo(es, n)[k]
  {
    if n > 0 {
      StartsAreCandidates(es, n - 1);
      var s := StartsUpTo(es, n - 1);
      var r := StartsUpTo(es, n);
      forall k | 0 <= k < |r|
        ensures exists j :: 0 <= j < n && IsStartCandidate(es, j) && es[j].day == r[k]
      {
        if k < |s| {
          assert r[k] == s[k];
          var j :| 0 <= j < n - 1 && IsStartCandidate(es, j) && es[j].day == s[k];
        } else {
          assert r == s + [es[n - 1].day];
          assert IsStartCandidate(es, n - 1) && es[n - 1].day == r[k];
        }
      }
      assert r == StartsUpTo(es, n);
    } else {
      assert StartsUpTo(es, n) == [];
    }
  }

  /** Every accepted cycle start carries flow other than spotting. */
  lemma StartsHaveFlow(es: seq<Entry>)
    ensures forall k :: 0 <= k < |CycleStarts(es)| ==>
      exists j :: 0 <= j < |es| && HasFlow(es[j]) && es[j].day == CycleStarts(es)[k]
  {
    StartsAreCandidates(es, |es|);
    var r := CycleStarts(es);
    forall k | 0 <= k < |r|
      ensures exists j :: 0 <= j < |es| && HasFlow(es[j]) && es[j].day == r[k]
    {
      var j :| 0 <= j < |es| && IsStartCandidate(es, j) && es[j].day == r[k];
      assert HasFlow(es[j]);
    }
  }

  /** Starts are never closer than 20 days, however many lie between them. */
  lemma {:induction false} StartsSpread(s: seq<Day>, a: int, b: int)
    requires forall k :: 0 <= k < |s| - 1 ==> s[k + 1] - s[k] >= MinStartGap
    requires 0 <= a <= b < |s|
    ensures s[b] - s[a] >= MinStartGap * (b - a)
    decreases b - a
  {
    if a < b {
      StartsSpread(s, a, b - 1);
    }
  }

  /** The accepted starts are strictly increasing. */
  lemma StartsIncreasing(es: seq<Entry>)
    ensures forall a, b :: 0 <= a < b < |CycleStarts(es)| ==> CycleStarts(es)[a] < CycleStarts(es)[b]
  {
    var s := CycleStarts(es);
    forall a, b | 0 <= a < b < |s|
      ensures s[a] < s[b]
    {
      StartsSpread(s, a, b);
    }
  }

  /** Scanning more entries only appends starts: the starts accepted among
      the first m entries begin the starts accepted among the first n. */
  lemma {:induction false} StartsPrefix(es: seq<Entry>, m: int, n: int)
    requires 0 <= m <= n <= |es|
    ensures StartsUpTo(es, m) <= StartsUpTo(es, n)
    decreases n - m
  {
    if m < n {
      StartsPrefix(es, m, n - 1);
      var s := StartsUpTo(es, n - 1);
      var r := StartsUpTo(es, n);
      assert r == s || r == s + [es[n - 1].day];
      assert s <= r;
    }
  }

  /** The starts appended while scanning entries m..n-1 are dates of those
      entries. */
  lemma {:induction false} StartsFromLater(es: seq<Entry>, m: int, n: int)
    requires 0 <= m <= n <= |es|
    ensures |StartsUpTo(es, m)| <= |StartsUpTo(es, n)|
    ensures forall k :: |StartsUpTo(es, m)| <= k < |StartsUpTo(es, n)| ==>
      exists i :: m <= i < n && es[i].day == StartsUpTo(es, n)[k]
    decreases n - m
  {
    StartsPrefix(es, m, n);
    if m < n {
      StartsFromLater(es, m, n - 1);
      var s := StartsUpTo(es, n - 1);
      var r := StartsUpTo(es, n);
      assert r == s || r == s + [es[n - 1].day];
      forall k | |StartsUpTo(es, m)| <= k < |r|
        ensures exists i :: m <= i < n && es[i].day == r[k]
      {
        if k < |s| {
          assert r[k] == s[k];
          var i :| m <= i < n - 1 && es[i].day == s[k];
          assert m <= i < n && es[i].day == r[k];
        } else {
          assert es[n - 1].day == r[k];
        }
      }
    }
  }

  /** A candidate far enough from the last start accepted before it is
      accepted. */
  lemma StartAccepted(es: seq<Entry>, j: int)
    requires 0 <= j < |es|
    requires IsStartCandidate(es, j) && FarEnough(StartsUpTo(es, j), es[j].day)
    ensures es[j].day in CycleStarts(es)
  {
    var s := StartsUpTo(es, j);
    StartsPrefix(es, j + 1, |es|);
    assert StartsUpTo(es, j + 1) == s + [es[j].day];
    assert CycleStarts(es)[|s|] == es[j].day;
  }

  /** Over date-ordered entries, the starts accepted before entry j are
      earlier than it. */
  lemma StartsBeforeEntry(es: seq<Entry>, j: int)
    requires Chronological(es)
    requires 0 <= j < |es|
    ensures forall k :: 0 <= k < |StartsUpTo(es, j)| ==> StartsUpTo(es, j)[k] < es[j].day
  {
    StartsAreCandidates(es, j);
    var s := StartsUpTo(es, j);
    forall k | 0 <= k < |s|
      ensures s[k] < es[j].day
    {
      assert exists i :: 0 <= i < j && IsStartCandidate(es, i) && es[i].day == StartsUpTo(es, j)[k];
      var i :| 0 <= i < j && IsStartCandidate(es, i) && es[i].day == s[k];
    }
  }

  /** Over date-ordered entries, the starts accepted after entry j are later
      than it. */
  lemma StartsAfterEntry(es: seq<Entry>, j: int)
    requires Chronological(es)
    requires 0 <= j < |es|
    ensures forall k :: |StartsUpTo(es, j + 1)| <= k < |CycleStarts(es)| ==> es[j].day < CycleStarts(es)[k]
  {
    StartsFromLater(es, j + 1, |es|);
    var c := CycleStarts(es);
    forall k | |StartsUpTo(es, j + 1)| <= k < |c|
      ensures es[j].day < c[k]
    {
      var i :| j + 1 <= i < |es| && es[i].day == c[k];
    }
  }

  /** Over date-ordered entries, an entry that is not a candidate, or is
      closer than 20 days to the last start before it, is not accepted. */
  lemma StartRejected(es: seq<Entry>, j: int)
    requires Chronological(es)
    requires 0 <= j < |es|
    requires !(IsStartCandidate(es, j) && FarEnough(StartsUpTo(es, j), es[j].day))
    ensures es[j].day !in CycleStarts(es)
  {
    var s := StartsUpTo(es, j);
    var c := CycleStarts(es);
    assert StartsUpTo(es, j + 1) == s;
    StartsPrefix(es, j, |es|);
    StartsBeforeEntry(es, j);
    StartsAfterEntry(es, j);
    forall k | 0 <= k < |c|
      ensures c[k] != es[j].day
    {
      if k < |s| {
        assert c[k] == s[k];
      }
    }
  }

  /** Over date-ordered entries, the date of entry j is an accepted start
      exactly when entry j is a candidate and lies at least 20 days after the
      last start accepted before it (or there is none). */
  lemma StartAcceptedIff(es: seq<Entry>, j: int)
    requires Chronological(es)
    requires 0 <= j < |es|
    ensures es[j].day in CycleStarts(es) <==>
      IsStartCandidate(es, j) && FarEnough(StartsUpTo(es, j), es[j].day)
  {
    if IsStartCandidate(es, j) && FarEnough(StartsUpTo(es, j), es[j].day) {
      StartAccepted(es, j);
    } else {
      StartRejected(es, j);
    }
  }

  /** A candidate entry fewer than 20 days after the last start accepted
      before it is not accepted. */
  lemma NoStartWithinTwentyDays(es: seq<Entry>, j: int)
    requires Chronological(es)
    requires 0 <= j < |es|
    requires |StartsUpTo(es, j)| > 0
    requires es[j].day - StartsUpTo(es, j)[|StartsUpTo(es, j)| - 1] < MinStartGap
    ensures es[j].day !in CycleStarts(es)
  {
    StartRejected(es, j);
  }

  // -------------------------------------------------------------------
  // Cycle lengths
  // -------------------------------------------------------------------

  /** The number of consecutive pairs of starts (`starts.length - 1`, or none). */
  function PairCount(s: seq<Day>): nat
  {
    if |s| == 0 then 0 else |s| - 1
  }

  predicate InCycleRange(len: int)
  {
    MinCycleLength <= len <= MaxCycleLength
  }

  /** The kept lengths among the first n pairs of starts: the differences
      that fall in [15, 90], in order. */
  function LengthsUpTo(s: seq<Day>, n: int): (r: seq<int>)
    requires 0 <= n <= PairCount(s)
    ensures forall k :: 0 <= k < |r| ==> InCycleRange(r[k])
    ensures |r| <= n
    decreases n
  {
    if n == 0 then []
    else
      var prev := LengthsUpTo(s, n - 1);
      var len := DiffDays(s[n], s[n - 1]);
      if InCycleRange(len) then prev + [len] else prev
  }

  function CycleLengths(es: seq<Entry>): seq<int>
  {
    var s := CycleStarts(es);
    LengthsUpTo(s, PairCount(s))
  }

  /** The difference between the i-th start and the next. */
  function Gap(s: seq<Day>, i: int): int
    requires 0 <= i < PairCount(s)
  {
    s[i + 1] - s[i]
  }

  /** Each kept length is the difference of a consecutive pair of starts. */
  lemma {:induction false} LengthsAreGaps(s: seq<Day>, n: int)
    requires 0 <= n <= PairCount(s)
    ensures forall k :: 0 <= k < |LengthsUpTo(s, n)| ==>
      exists i :: 0 <= i < n && LengthsUpTo(s, n)[k] == Gap(s, i)
  {
    if n > 0 {
      LengthsAreGaps(s, n - 1);
      var prev := LengthsUpTo(s, n - 1);
      var r := LengthsUpTo(s, n);
      assert r == prev || r == prev + [Gap(s, n - 1)];
      forall k | 0 <= k < |r|
        ensures exists i :: 0 <= i < n && r[k] == Gap(s, i)
      {
        if k < |prev| {
          assert r[k] == prev[k];
          var i :| 0 <= i < n - 1 && prev[k] == Gap(s, i);
          assert 0 <= i < n && r[k] == Gap(s, i);
        } else {
          assert r[k] == Gap(s, n - 1);
        }
      }
    } else {
      assert LengthsUpTo(s, n) == [];
    }
  }

  /** Each difference of a consecutive pair of starts that is in range is kept. */
  lemma {:induction false} GapsAreKept(s: seq<Day>, n: int)
    requires 0 <= n <= PairCount(s)
    ensures forall i :: 0 <= i < n && InCycleRange(Gap(s, i)) ==> Gap(s, i) in LengthsUpTo(s, n)
  {
    if n > 0 {
      GapsAreKept(s, n - 1);
      var prev := LengthsUpTo(s, n - 1);
      var r := LengthsUpTo(s, n);
      assert forall x :: x in prev ==> x in r;
    }
  }

  /** The number of the first n pairs of starts whose gap is x and lies in
      [15, 90]. */
  function CountGaps(s: seq<Day>, n: int, x: int): (c: nat)
    requires 0 <= n <= PairCount(s)
    ensures c == |set i | 0 <= i < n && InCycleRange(Gap(s, i)) && Gap(s, i) == x|
  {
    if n == 0 then 0
    else
      var before := CountGaps(s, n - 1, x);
      ghost var earlier := set i | 0 <= i < n - 1 && InCycleRange(Gap(s, i)) && Gap(s, i) == x;
      if InCycleRange(Gap(s, n - 1)) && Gap(s, n - 1) == x then
        assert (set i | 0 <= i < n && InCycleRange(Gap(s, i)) && Gap(s, i) == x) == earlier + {n - 1};
        before + 1
      else
        assert (set i | 0 <= i < n && InCycleRange(Gap(s, i)) && Gap(s, i) == x) == earlier;
        before
  }

  /** Each in-range gap is kept once per pair that has it: a length occurs in
      the kept list exactly as often as pairs of starts are that far apart. */
  lemma {:induction false} LengthsMultiplicity(s: seq<Day>, n: int, x: int)
    requires 0 <= n <= PairCount(s)
    ensures multiset(LengthsUpTo(s, n))[x] == CountGaps(s, n, x)
  {
    if n > 0 {
      LengthsMultiplicity(s, n - 1, x);
      var prev := LengthsUpTo(s, n - 1);
      var last := Gap(s, n - 1);
      var step := if InCycleRange(last) && last == x then 1 else 0;
      assert CountGaps(s, n, x) == CountGaps(s, n - 1, x) + step;
      if InCycleRange(last) {
        assert LengthsUpTo(s, n) == prev + [last];
        assert multiset(prev + [last]) == multiset(prev) + multiset{last};
      } else {
        assert LengthsUpTo(s, n) == prev;
      }
    } else {
      assert LengthsUpTo(s, n) == [];
    }
  }

  /** When consecutive starts are at least g days apart, so is every kept
      length at least g. */
  lemma {:induction false} LengthsAtLeast(s: seq<Day>, n: int, g: int)
    requires 0 <= n <= PairCount(s)
    requires forall i :: 0 <= i < n ==> g <= Gap(s, i)
    ensures forall k :: 0 <= k < |LengthsUpTo(s, n)| ==> g <= LengthsUpTo(s, n)[k]
  {
    if n > 0 {
      LengthsAtLeast(s, n - 1, g);
      var prev := LengthsUpTo(s, n - 1);
      assert g <= Gap(s, n - 1);
      assert LengthsUpTo(s, n) == prev || LengthsUpTo(s, n) == prev + [Gap(s, n - 1)];
    }
  }

  /** Since accepted starts are at least 20 days apart, every kept length is
      in fact in [20, 90]: the lower bound of 15 never discards anything. */
  lemma CycleLengthsAtLeastGap(es: seq<Entry>)
    ensures forall k :: 0 <= k < |CycleLengths(es)| ==>
      MinStartGap <= CycleLengths(es)[k] <= MaxCycleLength
  {
    var s := CycleStarts(es);
    forall i | 0 <= i < PairCount(s)
      ensures MinStartGap <= Gap(s, i)
    {
      assert s[i + 1] - s[i] >= MinStartGap;
    }
    LengthsAtLeast(s, PairCount(s), MinStartGap);
  }

  // -------------------------------------------------------------------
  // Luteal lengths
  // -------------------------------------------------------------------

  predicate InLutealRange(len: int)
  {
    MinLuteal <= len <= MaxLuteal
  }

  /** The entries of the i-th past cycle: dated from start i up to, not
      including, start i + 1. */
  function PastCycle(es: seq<Entry>, s: seq<Day>, i: int): seq<Entry>
    requires 0 <= i < PairCount(s)
  {
    Between(es, s[i], s[i + 1])
  }

  /** The luteal length of the i-th past cycle, if the detector confirms an
      ovulation in it and the days from ovulation to the next start fall in
      [9, 18]. */
  function LutealOf(es: seq<Entry>, s: seq<Day>, i: int): Option<int>
    requires 0 <= i < PairCount(s)
  {
    var bbt := Detect(PastCycle(es, s, i));
    if bbt.Confirmed? && InLutealRange(DiffDays(s[i + 1], bbt.ovulation)) then
      Some(DiffDays(s[i + 1], bbt.ovulation))
    else None
  }

  /** The kept luteal lengths among the first n past cycles, in order. */
  function LutealUpTo(es: seq<Entry>, s: seq<Day>, n: int): (r: seq<int>)
    requires 0 <= n <= PairCount(s)
    ensures forall k :: 0 <= k < |r| ==> InLutealRange(r[k])
    ensures |r| <= n
    decreases n
  {
    if n == 0 then []
    else
      var prev := LutealUpTo(es, s, n - 1);
      match LutealOf(es, s, n - 1)
      case Some(len) => prev + [len]
      case None => prev
  }

  /** Each kept luteal sample is the sample of one of the first n past
      cycles. */
  lemma {:induction false} LutealSamplesAreFromCycles(es: seq<Entry>, s: seq<Day>, n: int)
    requires 0 <= n <= PairCount(s)
    ensures forall k :: 0 <= k < |LutealUpTo(es, s, n)| ==>
      exists i :: 0 <= i < n && LutealOf(es, s, i) == Some(LutealUpTo(es, s, n)[k])
  {
    if n > 0 {
      LutealSamplesAreFromCycles(es, s, n - 1);
      var prev := LutealUpTo(es, s, n - 1);
      var r := LutealUpTo(es, s, n);
      assert r == prev || (LutealOf(es, s, n - 1).Some? && r == prev + [LutealOf(es, s, n - 1).value]);
      forall k | 0 <= k < |r|
        ensures exists i :: 0 <= i < n && LutealOf(es, s, i) == Some(r[k])
      {
        if k < |prev| {
          assert r[k] == prev[k];
          var i :| 0 <= i < n - 1 && LutealOf(es, s, i) == Some(prev[k]);
          assert 0 <= i < n && LutealOf(es, s, i) == Some(r[k]);
        } else {
          assert LutealOf(es, s, n - 1) == Some(r[k]);
        }
      }
    } else {
      assert LutealUpTo(es, s, n) == [];
    }
  }

  /** The samples of the first n - 1 past cycles are a prefix of those of
      the first n. */
  lemma LutealGrows(es: seq<Entry>, s: seq<Day>, n: int)
    requires 0 < n <= PairCount(s)
    ensures LutealUpTo(es, s, n - 1) <= LutealUpTo(es, s, n)
  {
    var prev := LutealUpTo(es, s, n - 1);
    match LutealOf(es, s, n - 1)
    case Some(len) =>
      assert LutealUpTo(es, s, n) == prev + [len];
    case None =>
      assert LutealUpTo(es, s, n) == prev;
  }

  /** A past cycle among the first n that yields a sample contributes it. */
  lemma {:induction false} LutealSampleIsKept(es: seq<Entry>, s: seq<Day>, n: int, i: int, x: int)
    requires 0 <= i < n <= PairCount(s)
    requires LutealOf(es, s, i) == Some(x)
    ensures x in LutealUpTo(es, s, n)
  {
    var prev := LutealUpTo(es, s, n - 1);
    if i == n - 1 {
      assert LutealUpTo(es, s, n) == prev + [x];
    } else {
      LutealSampleIsKept(es, s, n - 1, i, x);
      LutealGrows(es, s, n);
      var j :| 0 <= j < |prev| && prev[j] == x;
      assert LutealUpTo(es, s, n)[j] == x;
    }
  }

  /** Every past cycle among the first n that yields a sample contributes it. */
  lemma LutealSamplesAreKept(es: seq<Entry>, s: seq<Day>, n: int)
    requires 0 <= n <= PairCount(s)
    ensures forall i :: 0 <= i < n && LutealOf(es, s, i).Some? ==>
      LutealOf(es, s, i).value in LutealUpTo(es, s, n)
  {
    forall i | 0 <= i < n && LutealOf(es, s, i).Some?
      ensures LutealOf(es, s, i).value in LutealUpTo(es, s, n)
    {
      LutealSampleIsKept(es, s, n, i, LutealOf(es, s, i).value);
    }
  }

  /** The optional samples of the first n past cycles, in order. */
  function PastSamples(es: seq<Entry>, s: seq<Day>, n: int): (r: seq<Option<int>>)
    requires 0 <= n <= PairCount(s)
    ensures |r| == n
  {
    if n == 0 then [] else PastSamples(es, s, n - 1) + [LutealOf(es, s, n - 1)]
  }

  /** The present values of a list of optional samples, in order. */
  function Kept(os: seq<Option<int>>): seq<int>
  {
    if |os| == 0 then []
    else
      var prev := Kept(os[..|os| - 1]);
      match os[|os| - 1]
      case Some(v) => prev + [v]
      case None => prev
  }

  /** The number of positions of os holding o. */
  function Occurrences(os: seq<Option<int>>, o: Option<int>): (c: nat)
    ensures c == |set i | 0 <= i < |os| && os[i] == o|
  {
    if |os| == 0 then 0
    else
      var last := |os| - 1;
      var before := Occurrences(os[..last], o);
      ghost var earlier := set i | 0 <= i < last && os[..last][i] == o;
      assert earlier == set i | 0 <= i < last && os[i] == o;
      if os[last] == o then
        assert (set i | 0 <= i < |os| && os[i] == o) == earlier + {last};
        before + 1
      else
        assert (set i | 0 <= i < |os| && os[i] == o) == earlier;
        before
  }

  /** Keeping the present values keeps each one as often as it occurs. */
  lemma {:induction false} KeptMultiplicity(os: seq<Option<int>>, x: int)
    ensures multiset(Kept(os))[x] == Occurrences(os, Some(x))
  {
    if |os| > 0 {
      var init := os[..|os| - 1];
      KeptMultiplicity(init, x);
      var prev := Kept(init);
      match os[|os| - 1]
      case Some(v) =>
        assert Kept(os) == prev + [v];
        assert multiset(prev + [v]) == multiset(prev) + multiset{v};
      case None =>
        assert Kept(os) == prev;
    }
  }

  /** The luteal pass keeps exactly the present samples of the past cycles. */
  lemma {:induction false} LutealUpToIsKept(es: seq<Entry>, s: seq<Day>, n: int)
    requires 0 <= n <= PairCount(s)
    ensures LutealUpTo(es, s, n) == Kept(PastSamples(es, s, n))
  {
    if n > 0 {
      LutealUpToIsKept(es, s, n - 1);
      var os := PastSamples(es, s, n);
      assert os[..n - 1] == PastSamples(es, s, n - 1);
      assert os[n - 1] == LutealOf(es, s, n - 1);
    } else {
      assert LutealUpTo(es, s, n) == [];
    }
  }

  /** The number of the first n past cycles whose sample is x. */
  function CountLuteal(es: seq<Entry>, s: seq<Day>, n: int, x: int): nat
    requires 0 <= n <= PairCount(s)
  {
    Occurrences(PastSamples(es, s, n), Some(x))
  }

  /** Position i of the past samples is the sample of past cycle i. */
  lemma {:induction false} PastSampleAt(es: seq<Entry>, s: seq<Day>, n: int, i: int)
    requires 0 <= i < n <= PairCount(s)
    ensures PastSamples(es, s, n)[i] == LutealOf(es, s, i)
  {
    if i < n - 1 {
      PastSampleAt(es, s, n - 1, i);
      assert PastSamples(es, s, n)[i] == PastSamples(es, s, n - 1)[i];
    }
  }

  /** CountLuteal counts the past cycles whose sample is x. */
  lemma CountLutealCountsCycles(es: seq<Entry>, s: seq<Day>, n: int, x: int)
    requires 0 <= n <= PairCount(s)
    ensures CountLuteal(es, s, n, x) == |set i | 0 <= i < n && LutealOf(es, s, i) == Some(x)|
  {
    var os := PastSamples(es, s, n);
    forall i | 0 <= i < n
      ensures os[i] == LutealOf(es, s, i)
    {
      PastSampleAt(es, s, n, i);
    }
    assert (set i | 0 <= i < n && os[i] == Some(x)) ==
           (set i | 0 <= i < n && LutealOf(es, s, i) == Some(x));
  }

  /** Each past cycle contributes its own sample: a luteal length occurs in
      the kept list exactly as often as past cycles yield it. */
  lemma LutealMultiplicity(es: seq<Entry>, s: seq<Day>, n: int, x: int)
    requires 0 <= n <= PairCount(s)
    ensures multiset(LutealUpTo(es, s, n))[x] == CountLuteal(es, s, n, x)
    ensures CountLuteal(es, s, n, x) == |set i | 0 <= i < n && PastSamples(es, s, n)[i] == Some(x)|
  {
    LutealUpToIsKept(es, s, n);
    KeptMultiplicity(PastSamples(es, s, n), x);
  }

  function LutealLengths(es: seq<Entry>): seq<int>
  {
    var s := CycleStarts(es);
    LutealUpTo(es, s, PairCount(s))
  }

  // -------------------------------------------------------------------
  // The statistics
  // -------------------------------------------------------------------

  /** The statistics `analyzeHistory` returns, as a function of the entries. */
  function HistoryStatistics(es: seq<Entry>): Stats
  {
    var lengths := CycleLengths(es);
    if |lengths| < 2 then DefaultStats(|lengths|)
    else
      var luteal := LutealLengths(es);
      var avg := Mean(lengths);
      Stats(avg, Median(lengths), StdDev(lengths, avg),
            if |luteal| > 0 then Mean(luteal) else Ratio(14, 1),
            if |luteal| > 0 then Median(luteal) else 14,
            |lengths|)
  }

  /** `historyCount` is the number of kept cycle lengths, in both branches. */
  lemma HistoryCountIsKeptLengths(es: seq<Entry>)
    ensures HistoryStatistics(es).historyCount == |CycleLengths(es)|
  {
  }

  /** With fewer than two kept lengths, the statistics are exactly the
      defaults, still reporting the true count. */
  lemma HistoryFallback(es: seq<Entry>)
    requires |CycleLengths(es)| < 2
    ensures HistoryStatistics(es) == DefaultStats(|CycleLengths(es)|)
  {
  }

  /** With no entries at all, there are no starts and the defaults apply
      with a count of zero. */
  lemma HistoryOfNothing()
    ensures CycleStarts([]) == []
    ensures HistoryStatistics([]) == DefaultStats(0)
  {
  }

  /** With enough history, the cycle-length median and mean stay within
      the range of kept lengths, [20, 90]. */
  lemma HistoryCycleLengthInRange(es: seq<Entry>)
    requires |CycleLengths(es)| >= 2
    ensures var st := HistoryStatistics(es);
      MinStartGap <= st.medianCycleLength <= MaxCycleLength &&
      MinStartGap * st.avgCycleLength.den <= st.avgCycleLength.num <= MaxCycleLength * st.avgCycleLength.den
  {
    var lengths := CycleLengths(es);
    CycleLengthsAtLeastGap(es);
    MedianInRange(lengths, MinStartGap, MaxCycleLength);
    MeanInRange(lengths, MinStartGap, MaxCycleLength);
    assert HistoryStatistics(es).medianCycleLength == Median(lengths);
    assert HistoryStatistics(es).avgCycleLength == Mean(lengths);
  }

  /** The luteal median stays in [9, 18]: a median of kept samples, or 14
      when no past cycle has a confirmed luteal phase. */
  lemma HistoryLutealInRange(es: seq<Entry>)
    ensures MinLuteal <= HistoryStatistics(es).medianLutealLength <= MaxLuteal
    ensures |LutealLengths(es)| == 0 ==>
      HistoryStatistics(es).avgLutealLength == Ratio(14, 1) && HistoryStatistics(es).medianLutealLength == 14
  {
    var luteal := LutealLengths(es);
    if |CycleLengths(es)| >= 2 && |luteal| > 0 {
      MedianInRange(luteal, MinLuteal, MaxLuteal);
      assert HistoryStatistics(es).medianLutealLength == Median(luteal);
    }
  }

  /** Hence the statistical ovulation offset CL - LL is between 2 and 81 days
      with enough history (and 14 on the defaults). */
  lemma OvulationOffsetInRange(es: seq<Entry>)
    ensures var st := HistoryStatistics(es);
      2 <= st.medianCycleLength - st.medianLutealLength <= 81
  {
    HistoryLutealInRange(es);
    if |CycleLengths(es)| >= 2 {
      HistoryCycleLengthInRange(es);
    }
  }

  // -------------------------------------------------------------------
  // The computation
  // -------------------------------------------------------------------

  /** The first loop of `analyzeHistory`: accepts cycle starts in one
      chronological pass, remembering the last accepted start. */
  method CollectStarts(entries: seq<Entry>) returns (starts: seq<Day>)
    ensures starts == CycleStarts(entries)
  {
    starts := [];
    var lastStart: Option<Day> := None;
    var i := 0;
    while i < |entries|
      invariant 0 <= i <= |entries|
      invariant starts == StartsUpTo(entries, i)
      invariant lastStart == if |starts| == 0 then None else Some(starts[|starts| - 1])
    {
      var e := entries[i];
      var isPeriodFlow := HasFlow(e);
      var isStartCandidate := false;
      if i == 0 {
        if isPeriodFlow { isStartCandidate := true; }
      } else {
        var prev := entries[i - 1];
        var prevIsPeriodFlow := HasFlow(prev);
        if isPeriodFlow && (!prevIsPeriodFlow || DiffDays(e.day, prev.day) > 8) {
          isStartCandidate := true;
        }
      }
      assert isStartCandidate == IsStartCandidate(entries, i);
      if isStartCandidate {
        if lastStart.Some? && DiffDays(e.day, lastStart.value) < MinStartGap {
          isStartCandidate := false;
        }
        if isStartCandidate {
          starts := starts + [e.day];
          lastStart := Some(e.day);
        }
      }
      i := i + 1;
    }
  }

  /** The second loop: the differences between consecutive starts that fall
      in [15, 90]. */
  method KeepLengths(starts: seq<Day>) returns (lengths: seq<int>)
    ensures lengths == LengthsUpTo(starts, PairCount(starts))
  {
    lengths := [];
    var i := 0;
    while i < |starts| - 1
      invariant 0 <= i <= PairCount(starts)
      invariant lengths == LengthsUpTo(starts, i)
    {
      var len := DiffDays(starts[i + 1], starts[i]);
      if len >= MinCycleLength && len <= MaxCycleLength {
        lengths := lengths + [len];
      }
      i := i + 1;
    }
  }

  /** One step of the luteal pass: the i-th past cycle adds the days from its
      confirmed ovulation to the next start when they lie in [9, 18]. */
  lemma LutealStep(es: seq<Entry>, s: seq<Day>, i: int)
    requires 0 <= i < PairCount(s)
    ensures var bbt := Detect(Between(es, s[i], s[i + 1]));
      LutealUpTo(es, s, i + 1) ==
        if bbt.Confirmed? && InLutealRange(s[i + 1] - bbt.ovulation)
        then LutealUpTo(es, s, i) + [s[i + 1] - bbt.ovulation]
        else LutealUpTo(es, s, i)
  {
    assert PastCycle(es, s, i) == Between(es, s[i], s[i + 1]);
  }

  /** The third loop: runs the detector on every past cycle and keeps the
      luteal lengths in [9, 18]. */
  method CollectLuteal(entries: seq<Entry>, starts: seq<Day>) returns (lutealLengths: seq<int>)
    ensures lutealLengths == LutealUpTo(entries, starts, PairCount(starts))
  {
    lutealLengths := [];
    var i := 0;
    while i < |starts| - 1
      invariant 0 <= i <= PairCount(starts)
      invariant lutealLengths == LutealUpTo(entries, starts, i)
    {
      var cycleEntries := Between(entries, starts[i], starts[i + 1]);
      var bbtResult := ConfirmOvulation(cycleEntries);
      LutealStep(entries, starts, i);
      if bbtResult.Confirmed? {
        var luteal := DiffDays(starts[i + 1], bbtResult.ovulation);
        if luteal >= MinLuteal && luteal <= MaxLuteal {
          lutealLengths := lutealLengths + [luteal];
        }
      }
      i := i + 1;
    }
  }

  /** `analyzeHistory`: the starts, the kept lengths, the defaults when fewer
      than two lengths are known, and otherwise the luteal lengths and the
      statistics over both lists. */
  method AnalyzeHistory(entries: seq<Entry>) returns (stats: Stats, starts: seq<Day>)
    requires Chronological(entries)
    ensures starts == CycleStarts(entries)
    ensures stats == HistoryStatistics(entries)
  {
    starts := CollectStarts(entries);
    var lengths := KeepLengths(starts);
    if |lengths| < 2 {
      stats := DefaultStats(|lengths|);
      return;
    }
    var med := Median(lengths);
    var avg := Mean(lengths);
    var sd := StdDev(lengths, avg);
    var lutealLengths := CollectLuteal(entries, starts);
    var lutealAvg := if |lutealLengths| > 0 then Mean(lutealLengths) else Ratio(14, 1);
    var lutealMed := if |lutealLengths| > 0 then Median(lutealLengths) else 14;
    stats := Stats(avg, med, sd, lutealAvg, lutealMed, |lengths|);
  }
}
