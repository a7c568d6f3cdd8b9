/** The engine's entry point and today's summary
    (src/lib/cycle-calculations.ts, `runEngine`). The wall clock the source
    reads is the parameter `today`. */
module Engine {
  import opened Observations
  import opened Ovulation
  import opened History
  import opened CurrentCycle
  import opened Forecast

  /** The phase shown for a day. */
  datatype Phase = MenstrualPhase | FollicularPhase | OvulatoryPhase | LutealPhase

  /** `DailyPrediction`; fertilityLevel is 0 to 3. */
  datatype DailyPrediction = DailyPrediction(
    date: Day,
    phase: Phase,
    fertilityLevel: int,
    isFertile: bool,
    isPeriod: bool,
    isOvulation: bool,
    isConfirmed: bool,
    cycleDay: int)

  /** `EngineResult`: the statistics, the current cycle, and the predictions. */
  datatype EngineResult = EngineResult(
    statistics: Stats,
    currentCycle: CyclePhaseState,
    today: DailyPrediction,
    futureCycles: seq<FutureCycle>)

  /** Today falls in the low-confidence window around the predicted
      ovulation, from five days before to one day after. */
  predicate NearOvulation(cs: CyclePhaseState, today: Day)
  {
    -5 <= DiffDays(today, cs.ovulationPred.mid) <= 1
  }

  /** What today's summary says, state by state. */
  predicate SummaryRules(p: DailyPrediction, cs: CyclePhaseState, today: Day)
  {
    p.date == today &&
    p.cycleDay == cs.day &&
    0 <= p.fertilityLevel <= 3 &&
    (p.fertilityLevel == 3 <==> cs.state == PeakLh) &&
    (p.fertilityLevel == 2 <==> cs.state in {FertileMid, PostOvuPending}) &&
    (p.fertilityLevel == 1 <==>
       cs.state in {PreFertile, AnovulatorySuspected} && NearOvulation(cs, today)) &&
    (p.isFertile <==> p.fertilityLevel > 0) &&
    (p.isPeriod <==> cs.state == Menstruation) &&
    (p.isOvulation <==> cs.state == PeakLh || cs.ovulationConfirmedDate == Some(today)) &&
    (p.isConfirmed <==> cs.ovulationConfirmedDate.Some?) &&
    (p.phase == MenstrualPhase <==> cs.state == Menstruation) &&
    (p.phase == LutealPhase <==> cs.state == OvuConfirmed) &&
    (p.phase == OvulatoryPhase <==> p.fertilityLevel > 0) &&
    (p.phase == FollicularPhase <==>
       cs.state in {PreFertile, AnovulatorySuspected} && !NearOvulation(cs, today))
  }

  /** The today-summary block of `runEngine`: maps the state, and in the
      remaining states the distance to the predicted ovulation, to a phase
      and a fertility level. */
  method SummarizeToday(cs: CyclePhaseState, today: Day) returns (p: DailyPrediction)
    ensures SummaryRules(p, cs, today)
  {
    var todayPhase := FollicularPhase;
    var isFertile := false;
    var fertilityLevel := 0;

    if cs.state == Menstruation {
      todayPhase := MenstrualPhase;
    } else if cs.state == OvuConfirmed {
      todayPhase := LutealPhase;
    } else {
      if cs.state == PeakLh {
        todayPhase := OvulatoryPhase;
        isFertile := true;
        fertilityLevel := 3;
      } else if cs.state == FertileMid {
        todayPhase := OvulatoryPhase;
        isFertile := true;
        fertilityLevel := 2;
      } else if cs.state == PostOvuPending {
        todayPhase := OvulatoryPhase;
        isFertile := true;
        fertilityLevel := 2;
      } else {
        var oMid := cs.ovulationPred.mid;
        var dDiff := DiffDays(today, oMid);
        if dDiff >= -5 && dDiff <= 1 {
          todayPhase := OvulatoryPhase;
          isFertile := true;
          fertilityLevel := 1;
        }
      }
    }

    p := DailyPrediction(
      today,
      todayPhase,
      fertilityLevel,
      isFertile,
      cs.state == Menstruation,
      cs.state == PeakLh || cs.ovulationConfirmedDate == Some(today),
      cs.ovulationConfirmedDate.Some?,
      cs.day);
  }

  /** The start of the current cycle: the last accepted start, or today when
      there is none. */
  function CurrentStart(entries: seq<Entry>, today: Day): Day
  {
    var starts := CycleStarts(entries);
    if |starts| > 0 then starts[|starts| - 1] else today
  }

  /** `runEngine`: history statistics, the current cycle from the last start,
      six future cycles from its predicted next period, and today's summary. */
  method RunEngine(entries: seq<Entry>, today: Day) returns (result: EngineResult)
    requires Chronological(entries)
    ensures result.statistics == HistoryStatistics(entries)
    ensures Analysis(result.currentCycle, entries, CurrentStart(entries, today),
                     result.statistics, today)
    ensures |result.futureCycles| == DefaultCount
    ensures forall k :: 0 <= k < |result.futureCycles| ==>
      result.futureCycles[k] ==
        ForecastAt(result.currentCycle.nextPeriodPred.mid, result.statistics, k)
    ensures SummaryRules(result.today, result.currentCycle, today)
  {
    var stats, cycleStarts := AnalyzeHistory(entries);
    var lastStart := if |cycleStarts| > 0 then cycleStarts[|cycleStarts| - 1] else today;
    var currentAnalysis := AnalyzeCurrent(entries, lastStart, stats, today);
    var futureCycles := PredictFuture(currentAnalysis, stats, DefaultCount);
    var todayPrediction := SummarizeToday(currentAnalysis, today);
    result := EngineResult(stats, currentAnalysis, todayPrediction, futureCycles);
  }

  /** With no accepted cycle start, the current cycle begins today and today
      is its first day. */
  lemma NoStartsMeansDayOne(entries: seq<Entry>, today: Day, cs: CyclePhaseState, stats: Stats)
    requires |CycleStarts(entries)| == 0
    requires Analysis(cs, entries, CurrentStart(entries, today), stats, today)
    ensures cs.startDate == today && cs.day == 1
  {
  }

  /** When there are starts, the current cycle begins at a day with flow
      other than spotting, no earlier than any other accepted start. */
  lemma CurrentStartIsLastStart(entries: seq<Entry>, today: Day)
    requires Chronological(entries)
    requires |CycleStarts(entries)| > 0
    ensures exists i :: 0 <= i < |entries| && entries[i].day == CurrentStart(entries, today) &&
                        HasFlow(entries[i])
    ensures forall s :: s in CycleStarts(entries) ==> s <= CurrentStart(entries, today)
  {
    var starts := CycleStarts(entries);
    StartsHaveFlow(entries);
    StartsIncreasing(entries);
    assert starts[|starts| - 1] in starts;
    forall s | s in starts
      ensures s <= CurrentStart(entries, today)
    {
      var j :| 0 <= j < |starts| && starts[j] == s;
      if j < |starts| - 1 {
        assert starts[j] < starts[|starts| - 1];
      }
    }
  }

  /** Menstruation and a confirmed ovulation are never fertile days. */
  lemma NotFertileWhenBleedingOrConfirmed(p: DailyPrediction, cs: CyclePhaseState, today: Day)
    requires SummaryRules(p, cs, today)
    requires cs.state in {Menstruation, OvuConfirmed}
    ensures p.fertilityLevel == 0 && !p.isFertile
  {
  }

  /** Once the cycle is past bleeding and there is no positive ovulation
      test, the statistical fertile window already claims the week ending on
      the predicted ovulation at level 2, so level 1 can fall only on the day
      after it. */
  lemma StatisticalLevelOneOnlyDayAfter(entries: seq<Entry>, start: Day, stats: Stats,
                                        today: Day, cs: CyclePhaseState, p: DailyPrediction)
    requires Analysis(cs, entries, start, stats, today)
    requires SummaryRules(p, cs, today)
    requires cs.activePeak.None?
    requires p.fertilityLevel == 1
    requires cs.state != Menstruation
    ensures today == cs.ovulationPred.mid + 1
  {
    var bbt := Detect(Since(entries, start));
    StatisticalWindowInDates(cs.state, BleedingToday(entries, today), start, bbt, today,
                             stats, cs.ovulationPred);
  }

  /** Days after a positive test that already count as anovulatory lie
      outside the low-confidence window, so such a day is never fertile. */
  lemma AnovulatoryIsNeverFertile(entries: seq<Entry>, start: Day, stats: Stats,
                                  today: Day, cs: CyclePhaseState, p: DailyPrediction)
    requires Analysis(cs, entries, start, stats, today)
    requires SummaryRules(p, cs, today)
    requires cs.state == AnovulatorySuspected
    ensures p.fertilityLevel == 0 && !p.isFertile && p.phase == FollicularPhase
  {
  }
}
