/** The current cycle's state machine and its two predictions
    (src/lib/cycle-calculations.ts, `analyzeCurrent`). */
module CurrentCycle {
  import opened Numbers
  import opened Observations
  import opened Ovulation
  import opened History

  datatype CycleState =
    | Menstruation
    | PreFertile
    | FertileMid
    | PeakLh
    | PostOvuPending
    | OvuConfirmed
    | AnovulatorySuspected

  /** Confidence tiers, from pure statistics to thermal confirmation. */
  datatype Confidence = Low | Med | High

  /** `DateRangePrediction`. */
  datatype Prediction = Prediction(mid: Day, earliest: Day, latest: Day, confidence: Confidence)

  /** `CyclePhaseState`. */
  datatype CyclePhaseState = CyclePhaseState(
    startDate: Day,
    day: int,
    state: CycleState,
    ovulationConfirmedDate: Option<Day>,
    coverline: Option<int>,
    coverlineProvisional: bool,
    lhPeaks: seq<Day>,
    activePeak: Option<Day>,
    ovulationPred: Prediction,
    nextPeriodPred: Prediction)

  predicate Ordered(p: Prediction)
  {
    p.earliest <= p.mid <= p.latest
  }

  /** Today's entry has flow other than spotting. */
  predicate BleedingToday(entries: seq<Entry>, today: Day)
  {
    var e := Lookup(entries, today);
    e.Some? && HasFlow(e.value)
  }

  /** The last element of a list of peak dates, if any. */
  function LatestOf(peaks: seq<Day>): Option<Day>
  {
    if |peaks| > 0 then Some(peaks[|peaks| - 1]) else None
  }

  /** The statistical ovulation offset: median cycle length minus median
      luteal length. */
  function OvulationOffset(stats: Stats): int
  {
    stats.medianCycleLength - stats.medianLutealLength
  }

  /** The state rules of `analyzeCurrent`, tried in order: bleeding in the
      first week, thermal confirmation, the days since the latest positive
      ovulation test, the statistical fertile window in cycle days. */
  predicate StateRules(state: CycleState, bleeding: bool, day: int, confirmed: bool,
                       latestPeak: Option<Day>, today: Day, stats: Stats)
  {
    (state == Menstruation <==> bleeding && day <= 7) &&
    (state != Menstruation ==> (state == OvuConfirmed <==> confirmed)) &&
    (state !in {Menstruation, OvuConfirmed} && latestPeak.Some? ==>
      var d := DiffDays(today, latestPeak.value);
      (state == PeakLh <==> 0 <= d <= 1) &&
      (state == PostOvuPending <==> 2 <= d <= 4) &&
      (state == AnovulatorySuspected <==> 5 <= d) &&
      (state == PreFertile <==> d < 0)) &&
    (state !in {Menstruation, OvuConfirmed} && latestPeak.None? ==>
      (state == FertileMid <==>
         OvulationOffset(stats) - 5 <= day <= OvulationOffset(stats) + 1) &&
      (state != FertileMid ==> state == PreFertile)) &&
    (state in {PeakLh, PostOvuPending, AnovulatorySuspected} ==>
      latestPeak.Some? && !confirmed) &&
    (state == FertileMid ==> latestPeak.None? && !confirmed)
  }

  /** The ovulation prediction: the confirmed date exactly, else the day after
      the latest positive test give or take one day, else the statistical
      offset from the cycle start give or take two days. */
  predicate OvulationRule(p: Prediction, bbt: Bbt, latestPeak: Option<Day>,
                          currentStart: Day, stats: Stats)
  {
    Ordered(p) &&
    (bbt.Confirmed? ==>
      p == Prediction(bbt.ovulation, bbt.ovulation, bbt.ovulation, High)) &&
    (!bbt.Confirmed? && latestPeak.Some? ==>
      var q := latestPeak.value;
      p == Prediction(q + 1, q, q + 2, Med)) &&
    (!bbt.Confirmed? && latestPeak.None? ==>
      var ovu := currentStart + OvulationOffset(stats);
      p == Prediction(ovu, ovu - 2, ovu + 2, Low))
  }

  /** The next-period prediction: a luteal phase after the confirmed ovulation
      give or take one day; otherwise a luteal phase after the day following
      the latest positive test, or a median cycle after the start, give or
      take the rounded cycle-length deviation. */
  predicate NextPeriodRule(p: Prediction, bbt: Bbt, latestPeak: Option<Day>,
                           currentStart: Day, stats: Stats)
  {
    Ordered(p) &&
    (bbt.Confirmed? ==>
      var m := bbt.ovulation + stats.medianLutealLength;
      p == Prediction(m, m - 1, m + 1, High)) &&
    (!bbt.Confirmed? && latestPeak.Some? ==>
      var m := latestPeak.value + 1 + stats.medianLutealLength;
      var u := Round(stats.stdDevCycleLength);
      p == Prediction(m, m - u, m + u, Med)) &&
    (!bbt.Confirmed? && latestPeak.None? ==>
      var m := currentStart + stats.medianCycleLength;
      var u := Round(stats.stdDevCycleLength);
      p == Prediction(m, m - u, m + u, Low))
  }

  /** The confidence of a prediction made by either rule names the strongest
      signal present. */
  lemma ConfidenceNamesSignal(p: Prediction, q: Prediction, bbt: Bbt, latestPeak: Option<Day>,
                              currentStart: Day, stats: Stats)
    requires OvulationRule(p, bbt, latestPeak, currentStart, stats)
    requires NextPeriodRule(q, bbt, latestPeak, currentStart, stats)
    ensures p.confidence == q.confidence
    ensures p.confidence == High <==> bbt.Confirmed?
    ensures p.confidence == Med <==> !bbt.Confirmed? && latestPeak.Some?
    ensures p.confidence == Low <==> !bbt.Confirmed? && latestPeak.None?
  {
  }

  /** Outside menstruation and confirmation, and with no positive test, the
      fertile window in cycle days is, in dates, the week ending on the
      predicted ovulation: one day earlier than [mid - 5, mid + 1]. */
  lemma StatisticalWindowInDates(state: CycleState, bleeding: bool, currentStart: Day,
                                 bbt: Bbt, today: Day, stats: Stats, p: Prediction)
    requires StateRules(state, bleeding, DiffDays(today, currentStart) + 1, bbt.Confirmed?, None, today, stats)
    requires OvulationRule(p, bbt, None, currentStart, stats)
    requires state !in {Menstruation, OvuConfirmed}
    ensures state == FertileMid <==> p.mid - 6 <= today <= p.mid
  {
  }

  method Classify(bleeding: bool, day: int, confirmed: bool, latestPeak: Option<Day>,
                  today: Day, stats: Stats)
    returns (state: CycleState)
    ensures StateRules(state, bleeding, day, confirmed, latestPeak, today, stats)
  {
    state := PreFertile;
    if bleeding {
      if day <= 7 {
        state := Menstruation;
      }
    }

    if state != Menstruation {
      if confirmed {
        state := OvuConfirmed;
      } else if latestPeak.Some? {
        var daysSincePeak := DiffDays(today, latestPeak.value);
        if daysSincePeak == 0 || daysSincePeak == 1 {
          state := PeakLh;
        } else if daysSincePeak > 1 && daysSincePeak < 5 {
          state := PostOvuPending;
        } else if daysSincePeak >= 5 {
          state := AnovulatorySuspected;
        }
      } else {
        var estOvu := OvulationOffset(stats);
        if day >= estOvu - 5 && day <= estOvu + 1 {
          state := FertileMid;
        }
      }
    }
  }

  method PredictOvulation(bbt: Bbt, latestPeak: Option<Day>, currentStart: Day, stats: Stats)
    returns (p: Prediction)
    ensures OvulationRule(p, bbt, latestPeak, currentStart, stats)
  {
    var ovDateMid, ovDateMin, ovDateMax, ovConf;
    if bbt.Confirmed? {
      ovDateMid, ovDateMin, ovDateMax := bbt.ovulation, bbt.ovulation, bbt.ovulation;
      ovConf := High;
    } else if latestPeak.Some? {
      ovDateMid := AddDays(latestPeak.value, 1);
      ovDateMin := AddDays(latestPeak.value, 0);
      ovDateMax := AddDays(latestPeak.value, 2);
      ovConf := Med;
    } else {
      var day := OvulationOffset(stats);
      ovDateMid := AddDays(currentStart, day);
      ovDateMin := AddDays(currentStart, day - 2);
      ovDateMax := AddDays(currentStart, day + 2);
      ovConf := Low;
    }
    p := Prediction(ovDateMid, ovDateMin, ovDateMax, ovConf);
  }

  method PredictNextPeriod(bbt: Bbt, latestPeak: Option<Day>, currentStart: Day, stats: Stats)
    returns (p: Prediction)
    ensures NextPeriodRule(p, bbt, latestPeak, currentStart, stats)
  {
    var nextPerMid, nextPerMin, nextPerMax, nextConf;
    if bbt.Confirmed? {
      nextPerMid := AddDays(bbt.ovulation, stats.medianLutealLength);
      nextPerMin := AddDays(bbt.ovulation, stats.medianLutealLength - 1);
      nextPerMax := AddDays(bbt.ovulation, stats.medianLutealLength + 1);
      nextConf := High;
    } else {
      if latestPeak.Some? {
        nextPerMid := AddDays(latestPeak.value, 1 + stats.medianLutealLength);
        nextConf := Med;
      } else {
        nextPerMid := AddDays(currentStart, stats.medianCycleLength);
        nextConf := Low;
      }
      var u: int := Round(stats.stdDevCycleLength);
      nextPerMin := AddDays(nextPerMid, -u);
      nextPerMax := AddDays(nextPerMid, u);
    }
    p := Prediction(nextPerMid, nextPerMin, nextPerMax, nextConf);
  }

  /** What `analyzeCurrent` promises about its result: where each field
      comes from, the classification, and the two predictions. */
  predicate Analysis(cs: CyclePhaseState, entries: seq<Entry>, currentStart: Day,
                     stats: Stats, today: Day)
  {
    var cycle := Since(entries, currentStart);
    var bbt := Detect(cycle);
    cs.startDate == currentStart &&
    cs.day == DiffDays(today, currentStart) + 1 &&
    cs.lhPeaks == LhPeaks(cycle) &&
    cs.activePeak == LatestOf(cs.lhPeaks) &&
    (cs.ovulationConfirmedDate.Some? <==> bbt.Confirmed?) &&
    (bbt.Confirmed? ==>
       cs.ovulationConfirmedDate == Some(bbt.ovulation) && cs.coverline == Some(bbt.coverline)) &&
    (!bbt.Confirmed? ==> cs.coverline.None?) &&
    (cs.coverlineProvisional <==> !bbt.Confirmed? && CountWithTemperature(cycle) >= 6) &&
    StateRules(cs.state, BleedingToday(entries, today), cs.day, bbt.Confirmed?, cs.activePeak, today, stats) &&
    OvulationRule(cs.ovulationPred, bbt, cs.activePeak, currentStart, stats) &&
    NextPeriodRule(cs.nextPeriodPred, bbt, cs.activePeak, currentStart, stats)
  }

  /** `analyzeCurrent`: classifies the cycle that began on currentStart and
      predicts its ovulation and the next period from the entries dated on or
      after it. */
  method AnalyzeCurrent(entries: seq<Entry>, currentStart: Day, stats: Stats, today: Day)
    returns (cs: CyclePhaseState)
    requires Chronological(entries)
    ensures Analysis(cs, entries, currentStart, stats, today)
  {
    var cycleEntries := Since(entries, currentStart);
    var daysSinceStart := DiffDays(today, currentStart) + 1;

    var lhPeaks := LhPeaks(cycleEntries);
    var latestPeak := if |lhPeaks| > 0 then Some(lhPeaks[|lhPeaks| - 1]) else None;
    var bbt := ConfirmOvulation(cycleEntries);

    var todayEntry := Lookup(entries, today);
    var bleeding := todayEntry.Some? && HasFlow(todayEntry.value);
    var state := Classify(bleeding, daysSinceStart, bbt.Confirmed?, latestPeak, today, stats);
    var ovulationPred := PredictOvulation(bbt, latestPeak, currentStart, stats);
    var nextPeriodPred := PredictNextPeriod(bbt, latestPeak, currentStart, stats);

    cs := CyclePhaseState(
      currentStart,
      daysSinceStart,
      state,
      if bbt.Confirmed? then Some(bbt.ovulation) else None,
      if bbt.Confirmed? then Some(bbt.coverline) else None,
      !bbt.Confirmed? && CountWithTemperature(cycleEntries) >= 6,
      lhPeaks,
      latestPeak,
      ovulationPred,
      nextPeriodPred);
  }
}
