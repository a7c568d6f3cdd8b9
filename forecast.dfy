/** The multi-cycle forecast (src/lib/cycle-calculations.ts, `predictFuture`).

    Future cycles follow each other a median cycle length apart, starting at
    the predicted next period. The uncertainty of the k-th one (counting from
    0) is the square root of k + 1 times the cycle-length variance, so its
    window widens like the square root of the number of cycles ahead. */
module Forecast {
  import opened Numbers
  import opened Observations
  import opened History
  import opened CurrentCycle

  /** `FutureCycle`. */
  datatype FutureCycle = FutureCycle(
    cycleStart: Day,
    cycleStartLow: Day,
    cycleStartHigh: Day,
    ovulationDate: Day,
    ovulationLow: Day,
    ovulationHigh: Day,
    fertileStart: Day,
    fertileEnd: Day)

  /** The number of cycles forecast by default. */
  const DefaultCount := 6

  /** The accumulated uncertainty k cycles ahead: the square root of
      (k + 1) copies of the squared cycle-length deviation. */
  function Uncertainty(stats: Stats, k: nat): Root
  {
    var sd := stats.stdDevCycleLength;
    SqrtOf((k + 1) * sd.num, sd.den)
  }

  /** The k-th future cycle, counting from 0, of a forecast whose first cycle
      starts on firstStart. */
  function ForecastAt(firstStart: Day, stats: Stats, k: nat): FutureCycle
  {
    var u := Uncertainty(stats, k);
    var cMid := firstStart + k * stats.medianCycleLength;
    var oMid := cMid + OvulationOffset(stats);
    FutureCycle(cMid, cMid - Floor(u), cMid + Ceil(u),
                oMid, oMid - Floor(u), oMid + Ceil(u),
                oMid - 5, oMid + 1)
  }

  /** `predictFuture`: count future cycles, the first starting on the current
      cycle's predicted next period. The variance is accumulated one cycle at
      a time, as a multiple of the squared deviation. */
  method PredictFuture(current: CyclePhaseState, stats: Stats, count: int)
    returns (predictions: seq<FutureCycle>)
    ensures |predictions| == if count > 0 then count else 0
    ensures forall k :: 0 <= k < |predictions| ==>
      predictions[k] == ForecastAt(current.nextPeriodPred.mid, stats, k)
  {
    predictions := [];
    var sd := stats.stdDevCycleLength;
    var lastPeriodStartMid := current.nextPeriodPred.mid;
    var varianceNum: nat := sd.num;
    var k := 0;
    while k < count
      invariant if count > 0 then k <= count else k == 0
      invariant |predictions| == k
      invariant lastPeriodStartMid == current.nextPeriodPred.mid + k * stats.medianCycleLength
      invariant varianceNum == (k + 1) * sd.num
      invariant forall j :: 0 <= j < k ==>
        predictions[j] == ForecastAt(current.nextPeriodPred.mid, stats, j)
    {
      var uncertainty := SqrtOf(varianceNum, sd.den);
      var cMid := lastPeriodStartMid;
      var cLow := AddDays(cMid, -(Floor(uncertainty) as int));
      var cHigh := AddDays(cMid, Ceil(uncertainty));
      var ovuOffset := stats.medianCycleLength - stats.medianLutealLength;
      var oMid := AddDays(cMid, ovuOffset);
      var oLow := AddDays(oMid, -(Floor(uncertainty) as int));
      var oHigh := AddDays(oMid, Ceil(uncertainty));
      var fStart := AddDays(oMid, -5);
      var fEnd := AddDays(oMid, 1);
      predictions := predictions + [FutureCycle(cMid, cLow, cHigh, oMid, oLow, oHigh, fStart, fEnd)];
      lastPeriodStartMid := AddDays(lastPeriodStartMid, stats.medianCycleLength);
      varianceNum := varianceNum + sd.num;
      k := k + 1;
    }
  }

  function LowWidth(f: FutureCycle): int { f.cycleStart - f.cycleStartLow }
  function HighWidth(f: FutureCycle): int { f.cycleStartHigh - f.cycleStart }

  /** Each future cycle brackets its start and its ovulation, the ovulation is
      the statistical offset after the start with the same uncertainty, and
      the fertile window is the seven days ending the day after ovulation. */
  lemma ForecastShape(firstStart: Day, stats: Stats, k: nat)
    ensures var f := ForecastAt(firstStart, stats, k);
      f.cycleStartLow <= f.cycleStart <= f.cycleStartHigh &&
      f.ovulationLow <= f.ovulationDate <= f.ovulationHigh &&
      f.ovulationDate - f.cycleStart == OvulationOffset(stats) &&
      f.ovulationDate - f.ovulationLow == LowWidth(f) &&
      f.ovulationHigh - f.ovulationDate == HighWidth(f) &&
      f.fertileStart == f.ovulationDate - 5 && f.fertileEnd == f.ovulationDate + 1 &&
      LowWidth(f) <= HighWidth(f) <= LowWidth(f) + 1
  {
    var u := Uncertainty(stats, k);
    FloorLeCeil(u.num, u.den);
  }

  /** Consecutive future cycles start a median cycle length apart, and the
      first starts on the given date. */
  lemma ForecastSpacing(firstStart: Day, stats: Stats, k: nat)
    ensures ForecastAt(firstStart, stats, 0).cycleStart == firstStart
    ensures ForecastAt(firstStart, stats, k + 1).cycleStart ==
            ForecastAt(firstStart, stats, k).cycleStart + stats.medianCycleLength
  {
    assert (k + 1) * stats.medianCycleLength == k * stats.medianCycleLength + stats.medianCycleLength;
  }

  /** The window of the k-th cycle is the floor and the ceiling of the square
      root of (k + 1) times the variance. */
  lemma ForecastWidths(firstStart: Day, stats: Stats, k: nat)
    ensures var f := ForecastAt(firstStart, stats, k);
      var sd := stats.stdDevCycleLength;
      var lo := LowWidth(f);
      var hi := HighWidth(f);
      0 <= lo && lo * lo * sd.den <= (k + 1) * sd.num < (lo + 1) * (lo + 1) * sd.den &&
      0 <= hi && (k + 1) * sd.num <= hi * hi * sd.den &&
      (hi == 0 || (hi - 1) * (hi - 1) * sd.den < (k + 1) * sd.num)
  {
  }

  /** The further ahead, the wider the window: uncertainty never shrinks. */
  lemma {:induction false} WindowsWiden(firstStart: Day, stats: Stats, k: nat, j: nat)
    requires k <= j
    ensures LowWidth(ForecastAt(firstStart, stats, k)) <= LowWidth(ForecastAt(firstStart, stats, j))
    ensures HighWidth(ForecastAt(firstStart, stats, k)) <= HighWidth(ForecastAt(firstStart, stats, j))
  {
    var sd := stats.stdDevCycleLength;
    assert (k + 1) * sd.num <= (j + 1) * sd.num by {
      assert (j + 1) * sd.num == (k + 1) * sd.num + (j - k) * sd.num;
    }
    FloorSqrtMono((k + 1) * sd.num, (j + 1) * sd.num, sd.den);
    CeilSqrtMono((k + 1) * sd.num, (j + 1) * sd.num, sd.den);
  }

  /** With a cycle-length deviation of 3 days (the fallback statistics), the
      first future cycle is 3 days either side of its start, and the third is
      5 days before and 6 days after, from the square root of 27. */
  lemma ThreeDayDeviation(firstStart: Day, stats: Stats)
    requires stats.stdDevCycleLength == SqrtOf(9, 1)
    ensures LowWidth(ForecastAt(firstStart, stats, 0)) == 3
    ensures HighWidth(ForecastAt(firstStart, stats, 0)) == 3
    ensures LowWidth(ForecastAt(firstStart, stats, 2)) == 5
    ensures HighWidth(ForecastAt(firstStart, stats, 2)) == 6
  {
    FloorSqrtUnique(9, 1, 3);
    CeilSqrtUnique(9, 1, 3);
    FloorSqrtUnique(27, 1, 5);
    CeilSqrtUnique(27, 1, 6);
  }
}
