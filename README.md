# Cycle prediction engine, modelled in Dafny

This project models the cycle-prediction engine of a fertility-awareness
tracker (`src/lib/cycle-calculations.ts`). The engine reads a set of daily
entries: menstrual flow, basal body temperature with an "exclude" flag, and
the result of an ovulation (LH) test. From them it computes:

- **history statistics**: cycle starts, the cycle lengths between them, and
  luteal lengths found by running the temperature detector on each past
  cycle;
- **the current cycle**: a seven-state classification, an ovulation
  prediction and a next-period prediction, each with bounds and a
  confidence tier;
- **a forecast** of future cycles whose uncertainty grows with the square
  root of the accumulated variance;
- **a summary of today**: phase, fertility level 0 to 3, and flags.

Representation:

- A date is an integer day number, so `addDays` is `+` and `diffDays` is
  `-`.
- Temperatures are integers in hundredths of a degree. The thresholds
  0.15 and 0.05 become 15 and 5.
- The date-keyed record of entries is a list with strictly increasing days
  (`Chronological`). This is the order the source sorts it into before use.
- Means are exact rationals (`Ratio`).
- The standard deviation is an exact square root `SqrtOf(num, den)`
  (√(num/den)). The source's `Math.floor`, `Math.ceil` and `Math.round` of
  it are integer square roots that are proved correct (`FloorSqrt`,
  `CeilSqrt`, `RoundSqrt`).
- The clock read by `runEngine` is the parameter `today`.

Modules, one per part of the engine:

- `Numbers`: sum, sort, median, mean, sample standard deviation, integer
  square roots.
- `Observations`: entries, date arithmetic, filters.
- `Ovulation`: the 3-over-6 temperature rule and the LH peaks.
- `History`: `analyzeHistory`.
- `CurrentCycle`: `analyzeCurrent`.
- `Forecast`: `predictFuture`.
- `Engine`: `runEngine` and the today summary.

Where the source changes variables step by step, the model is a method:

- the history passes;
- the sliding temperature window;
- the forecast loop;
- the if/else chains of `analyzeCurrent` and the summary.

Each method is proved equal to a specification function, or to satisfy a
predicate that spells out the source's rules. The properties are then
proved about those functions and predicates.

Notes on the source:

- `coverlineProvisional` (`cycle-calculations.ts:311`) counts every entry
  with a truthy temperature, excluded or not, unlike the detector's
  valid-reading filter at `cycle-calculations.ts:153`. The model follows the
  code (`CountWithTemperature` against `ValidReadings`).
- The statistical FERTILE_MID test works in cycle days:
  `day ∈ [(CL − LL) − 5, (CL − LL) + 1]`. The predicted ovulation is
  `start + (CL − LL)`, which is cycle day `CL − LL + 1`. In dates the window
  is therefore `[mid − 6, mid]`, one day earlier than the symmetric window
  `[mid − 5, mid + 1]` that the summary and the forecast use
  (`StatisticalWindowInDates`).
  - Also, with no LH peak and the cycle past bleeding, the low-confidence
    level 1 of the summary can only fall on the day after the predicted
    ovulation (`StatisticalLevelOneOnlyDayAfter`).
- Accepted starts are at least 20 days apart, so the lower bound 15 of the
  cycle-length filter never discards anything (`CycleLengthsAtLeastGap`).
- `predictFuture` seeds its first start with `nextPeriodPred?.mid ||
  addDays(...)`. The predicted mid is always set, so the fallback after `||`
  is never taken, and the model has none.
- `analyzeCurrent` always sets `ovulationPred`, so the guard
  `if (currentAnalysis.ovulationPred)` in the summary always holds.

## Model

| member | source | states |
|---|---|---|
| Observations.AddDays | src/lib/cycle-calculations.ts:18-22 | moving a date by n days; `DiffDays` is its inverse (`AddDays(b, DiffDays(a, b)) == a`) |
| Observations.DiffDays | src/lib/cycle-calculations.ts:18-26 | adding the difference back with `AddDays` gives the later date; the difference is non-negative exactly when the dates are in order |
| Observations.Select | src/lib/cycle-calculations.ts:114-116 | a filter keeps exactly the entries that satisfy the condition, never adds any, and keeps date order |
| Observations.Since | src/lib/cycle-calculations.ts:199-201 | the current cycle's entries are exactly those dated on or after its start, in date order |
| Observations.Between | src/lib/cycle-calculations.ts:114-116 | a past cycle's entries are exactly those dated in [start, next start), in date order |
| Observations.Lookup | src/lib/cycle-calculations.ts:216 | `entries[todayStr]` finds the entry recorded for that date, and finds nothing when there is none |
| Observations.CountWithTemperature | src/lib/cycle-calculations.ts:311 | the count is the number of positions whose entry has a truthy temperature (present and non-zero), excluded or not |
| Numbers.Median | src/lib/cycle-calculations.ts:28-33 | 0 for no values, else the middle of the sorted values (the two middle ones averaged); its properties are `MedianInRange`, `MedianOfOddLength` and `MedianIgnoresOrder` |
| Numbers.Mean | src/lib/cycle-calculations.ts:101 | the sum over the count, as an exact ratio; its property is `MeanInRange` |
| Numbers.StdDev | src/lib/cycle-calculations.ts:35-39 | 1 for at most one value, else √(Σ(v−mean)²/(n−1)); its property is `StdDevZero` |
| Numbers.SumBounds | src/lib/cycle-calculations.ts:101 | a sum of values in [lo, hi] lies in [lo·n, hi·n] |
| Numbers.Insert | src/lib/cycle-calculations.ts:30 | inserting into a sorted list keeps it sorted and adds exactly that element |
| Numbers.SortAsc | src/lib/cycle-calculations.ts:30 | the numeric sort returns a sorted permutation of its input |
| Numbers.SortedUnique | src/lib/cycle-calculations.ts:30 | two sorted permutations of the same values are equal, so the sorted order is unique |
| Numbers.MedianInRange | src/lib/cycle-calculations.ts:28-33 | the median of values in [lo, hi] lies in [lo, hi] |
| Numbers.MedianOfOddLength | src/lib/cycle-calculations.ts:31-32 | for an odd count the median is one of the values |
| Numbers.MedianIgnoresOrder | src/lib/cycle-calculations.ts:30 | the median depends only on the multiset of values, not on their order |
| Numbers.MeanInRange | src/lib/cycle-calculations.ts:101 | the mean of values in [lo, hi] lies in [lo, hi] |
| Numbers.SumSquaredDeviationsZero | src/lib/cycle-calculations.ts:37 | the sum of squared deviations is zero exactly when every value equals the mean |
| Numbers.StdDevZero | src/lib/cycle-calculations.ts:35-39 | for two or more values the sample deviation √(Σ(v−mean)²/(n−1)) is zero exactly when every value equals the mean |
| Numbers.FloorSqrt | src/lib/cycle-calculations.ts:351-355 | r is the floor of √(num/den): r²·den ≤ num < (r+1)²·den |
| Numbers.FloorSqrtUnique | src/lib/cycle-calculations.ts:355 | only the floor of the square root sits between consecutive squares |
| Numbers.FloorSqrtMono | src/lib/cycle-calculations.ts:355 | the floor of the square root is monotone |
| Numbers.CeilSqrt | src/lib/cycle-calculations.ts:351-356 | r is the ceiling of √(num/den): num ≤ r²·den, and (r−1)²·den < num unless r = 0 |
| Numbers.CeilSqrtUnique | src/lib/cycle-calculations.ts:356 | only the ceiling of the square root has those two bounds |
| Numbers.CeilSqrtMono | src/lib/cycle-calculations.ts:356 | the ceiling of the square root is monotone |
| Numbers.FloorLeCeil | src/lib/cycle-calculations.ts:355-356 | floor ≤ ceiling ≤ floor + 1 |
| Numbers.RoundSqrt | src/lib/cycle-calculations.ts:301-302 | r is √(num/den) rounded half up: (2r−1)²·den ≤ 4·num < (2r+1)²·den |
| Ovulation.ValidReadings | src/lib/cycle-calculations.ts:153 | the valid readings are no more than the entries; `ValidReadingsAreValidEntries` states exactly which they are |
| Ovulation.ValidReadingsAreValidEntries | src/lib/cycle-calculations.ts:153 | the readings are exactly the valid entries (temperature present and non-zero, not excluded), in order, each as its date and temperature |
| Ovulation.MaxTemp | src/lib/cycle-calculations.ts:161 | the maximum is at least every reading and equals one of them |
| Ovulation.FirstShift | src/lib/cycle-calculations.ts:157-178 | the scan returns an index where the shift rule holds and none earlier holds, or nothing when no index holds |
| Ovulation.Detect | src/lib/cycle-calculations.ts:152-180 | the 3-over-6 rule; its properties are `DetectNeedsNineReadings`, `BaselineIsMax`, `DetectConfirmed` and `DetectNotConfirmed`, and `ConfirmOvulation` computes it |
| Ovulation.DetectNeedsNineReadings | src/lib/cycle-calculations.ts:153-154 | fewer than 9 valid readings (temperature present, not excluded) never confirm |
| Ovulation.BaselineIsMax | src/lib/cycle-calculations.ts:158-161 | the coverline is the largest of the 6 valid readings before the window, and equals one of them |
| Ovulation.DetectConfirmed | src/lib/cycle-calculations.ts:157-177 | a confirmation at index i means: at least 9 readings; i is the first index ≥ 6 where all 3 readings exceed the coverline and the third is ≥ coverline + 15 or all three are ≥ coverline + 5; the ovulation date is the first high reading's date − 1 and the coverline is the baseline |
| Ovulation.DetectNotConfirmed | src/lib/cycle-calculations.ts:154-179 | not confirmed means fewer than 9 readings, or no window satisfies the shift rule |
| Ovulation.ConfirmOvulation | src/lib/cycle-calculations.ts:152-180 | the sliding-window loop with its early return computes exactly the detector `Detect` |
| Ovulation.LhPeaks | src/lib/cycle-calculations.ts:182-186 | every peak date is the date of a positive or peak LH test, and every such test's date is a peak date |
| Ovulation.LhPeaksIncreasing | src/lib/cycle-calculations.ts:182-186 | over date-ordered entries the peak dates are strictly increasing |
| Ovulation.LatestPeakIsLatest | src/lib/cycle-calculations.ts:206-207 | the last peak date is the latest positive test of the cycle |
| Ovulation.ClearShiftConfirms | src/lib/cycle-calculations.ts:152-177 | nine days at 36.20 followed by four at 36.60 confirm ovulation on day 9 with coverline 36.20, first high on day 10 |
| History.IsStartCandidate | src/lib/cycle-calculations.ts:55-64 | non-spotting flow, and the first entry, or after an entry without such flow, or more than 8 days after the previous entry; `StartAcceptedIff` ties it to the starts |
| History.StartsUpTo | src/lib/cycle-calculations.ts:50-77 | consecutive accepted starts are at least 20 days apart, and there are no more starts than entries |
| History.CycleStarts | src/lib/cycle-calculations.ts:47-77 | the starts of all entries; their properties are `StartAcceptedIff`, `StartsAreCandidates`, `StartsHaveFlow`, `StartsSpread` and `StartsIncreasing`, and `CollectStarts` computes them |
| History.StartsPrefix | src/lib/cycle-calculations.ts:50-77 | the starts accepted among the first m entries are a prefix of those accepted among the first n ≥ m |
| History.StartsFromLater | src/lib/cycle-calculations.ts:50-77 | every start accepted after the first m entries is the date of an entry at position m or later |
| History.StartsBeforeEntry | src/lib/cycle-calculations.ts:50-77 | over date-ordered entries, the starts accepted before entry j are earlier than its date |
| History.StartsAfterEntry | src/lib/cycle-calculations.ts:50-77 | over date-ordered entries, the starts accepted after entry j are later than its date |
| History.StartAccepted | src/lib/cycle-calculations.ts:66-75 | a candidate entry at least 20 days after the last start before it (or with none before it) is accepted |
| History.StartRejected | src/lib/cycle-calculations.ts:66-75 | over date-ordered entries, an entry that is not a candidate, or is fewer than 20 days after the last start before it, is not accepted |
| History.StartAcceptedIff | src/lib/cycle-calculations.ts:50-77 | over date-ordered entries, an entry's date is a start exactly when the entry is a candidate and the last start before it is none or at least 20 days back |
| History.StartsAreCandidates | src/lib/cycle-calculations.ts:55-64 | every accepted start is the date of a candidate entry: non-spotting flow, and either the first entry, a previous entry without flow, or one more than 8 days back |
| History.StartsHaveFlow | src/lib/cycle-calculations.ts:53-73 | every accepted start carries flow other than spotting |
| History.StartsSpread | src/lib/cycle-calculations.ts:68-74 | starts b − a positions apart are at least 20·(b − a) days apart |
| History.StartsIncreasing | src/lib/cycle-calculations.ts:68-74 | accepted starts are strictly increasing |
| History.NoStartWithinTwentyDays | src/lib/cycle-calculations.ts:66-75 | a candidate fewer than 20 days after the last start accepted before it is not accepted as a start |
| History.LengthsUpTo | src/lib/cycle-calculations.ts:80-86 | every kept cycle length lies in [15, 90] |
| History.LengthsAreGaps | src/lib/cycle-calculations.ts:81-85 | every kept length is the difference between a start and the next one |
| History.GapsAreKept | src/lib/cycle-calculations.ts:81-85 | every difference between consecutive starts that lies in [15, 90] is kept |
| History.CountGaps | src/lib/cycle-calculations.ts:81-85 | the number of the first n pairs of consecutive starts whose gap is x and lies in [15, 90], as the size of that set of pair indices |
| History.LengthsMultiplicity | src/lib/cycle-calculations.ts:81-85 | a length occurs in the kept list exactly as often as pairs of consecutive starts have that in-range gap, so equal gaps are each kept |
| History.LengthsAtLeast | src/lib/cycle-calculations.ts:81-85 | when consecutive starts are at least g days apart, every kept length is at least g |
| History.CycleLengthsAtLeastGap | src/lib/cycle-calculations.ts:68-85 | every kept cycle length lies in [20, 90] |
| History.LutealOf | src/lib/cycle-calculations.ts:109-126 | the luteal rule for one past cycle; its properties are carried by `LutealSamplesAreFromCycles`, `LutealSampleIsKept`, `LutealSamplesAreKept` and `LutealMultiplicity` |
| History.LutealUpTo | src/lib/cycle-calculations.ts:106-126 | every kept luteal sample lies in [9, 18] |
| History.LutealSamplesAreFromCycles | src/lib/cycle-calculations.ts:106-126 | every kept luteal sample is the sample `LutealOf` of one of the past cycles |
| History.LutealSamplesAreKept | src/lib/cycle-calculations.ts:106-126 | every past cycle that yields a sample has that sample kept |
| History.LutealUpToIsKept | src/lib/cycle-calculations.ts:110-125 | the luteal pass keeps exactly the present samples of the past cycles, in order |
| History.PastSampleAt | src/lib/cycle-calculations.ts:110-125 | position i of the list of past samples is the sample of past cycle i |
| History.CountLutealCountsCycles | src/lib/cycle-calculations.ts:110-125 | `CountLuteal` is the number of past cycles whose sample is x |
| History.LutealMultiplicity | src/lib/cycle-calculations.ts:110-125 | a luteal length occurs in the kept list exactly as often as past cycles yield it, so equal samples are each kept |
| History.LutealGrows | src/lib/cycle-calculations.ts:110-125 | the samples of the first n − 1 past cycles are a prefix of those of the first n |
| History.LutealSampleIsKept | src/lib/cycle-calculations.ts:110-125 | a past cycle whose sample is x has x among the kept samples |
| History.HistoryStatistics | src/lib/cycle-calculations.ts:88-136 | the fallback for fewer than 2 kept lengths, else median, mean and deviation of the lengths and the luteal mean and median (14 with no sample); its properties are the `History*` lemmas below |
| History.HistoryCountIsKeptLengths | src/lib/cycle-calculations.ts:89-136 | `historyCount` equals the number of kept cycle lengths |
| History.HistoryFallback | src/lib/cycle-calculations.ts:89-97 | fewer than 2 kept lengths give exactly avg 28, median 28, deviation 3, luteal 14/14, with the true count |
| History.HistoryOfNothing | src/lib/cycle-calculations.ts:43-97 | no entries give no starts and the default statistics with count 0 |
| History.HistoryCycleLengthInRange | src/lib/cycle-calculations.ts:99-102 | with at least 2 kept lengths, the median and the mean cycle length lie in [20, 90] |
| History.HistoryLutealInRange | src/lib/cycle-calculations.ts:128-131 | the median luteal length lies in [9, 18], and is 14 (avg 14) when there is no sample |
| History.OvulationOffsetInRange | src/lib/cycle-calculations.ts:238-270 | the ovulation offset CL − LL always lies in [2, 81] |
| History.CollectStarts | src/lib/cycle-calculations.ts:47-77 | the start-detection loop computes exactly `CycleStarts` |
| History.KeepLengths | src/lib/cycle-calculations.ts:80-86 | the length loop computes exactly the filtered gaps `LengthsUpTo` |
| History.CollectLuteal | src/lib/cycle-calculations.ts:106-126 | the luteal loop computes exactly `LutealUpTo` |
| History.AnalyzeHistory | src/lib/cycle-calculations.ts:43-140 | `analyzeHistory` returns the starts `CycleStarts` and the statistics `HistoryStatistics`, about which the lemmas above hold |
| CurrentCycle.ConfidenceNamesSignal | src/lib/cycle-calculations.ts:254-298 | the two predictions have the same tier: HIGH iff confirmed, MED iff an LH peak and no confirmation, LOW otherwise |
| CurrentCycle.StatisticalWindowInDates | src/lib/cycle-calculations.ts:238-271 | with no peak and no confirmation, FERTILE_MID holds exactly when today lies in [ovulation mid − 6, ovulation mid] |
| CurrentCycle.Classify | src/lib/cycle-calculations.ts:212-244 | the seven-state rules in order: MENSTRUATION iff flow today and day ≤ 7; then OVU_CONFIRMED iff confirmed; then, d days after the latest peak, PEAK_LH iff d ∈ {0,1}, POST_OVU_PENDING iff 2 ≤ d ≤ 4, ANOVULATORY_SUSPECTED iff d ≥ 5, else PRE_FERTILE; with no peak, FERTILE_MID iff the day is in [(CL−LL)−5, (CL−LL)+1], else PRE_FERTILE |
| CurrentCycle.PredictOvulation | src/lib/cycle-calculations.ts:251-275 | earliest ≤ mid ≤ latest; the confirmed date exactly (HIGH); else [peak, peak+2] with mid peak+1 (MED); else start + (CL−LL) ± 2 (LOW) |
| CurrentCycle.PredictNextPeriod | src/lib/cycle-calculations.ts:278-303 | earliest ≤ mid ≤ latest; confirmed + LL ± 1 (HIGH); else peak + 1 + LL (MED) or start + CL (LOW), ± round(deviation) |
| CurrentCycle.AnalyzeCurrent | src/lib/cycle-calculations.ts:191-328 | the day count, the LH peaks and latest peak, the confirmed date and coverline (set iff the detector confirms), the provisional flag (not confirmed and at least 6 entries with a temperature), the classification and both predictions as above |
| Forecast.ForecastAt | src/lib/cycle-calculations.ts:350-379 | the k-th future cycle; its properties are `ForecastShape`, `ForecastSpacing`, `ForecastWidths`, `WindowsWiden` and `ThreeDayDeviation`, and `PredictFuture` computes it |
| Forecast.PredictFuture | src/lib/cycle-calculations.ts:333-387 | exactly `count` cycles (none for count ≤ 0); cycle k is `ForecastAt(next period mid, k)`: start mid + k·CL, window floor/ceil of √((k+1)·σ²), ovulation start + (CL−LL) with the same window, fertile [ovu−5, ovu+1] |
| Forecast.ForecastShape | src/lib/cycle-calculations.ts:350-379 | low ≤ mid ≤ high for the start and the ovulation; ovulation = start + (CL−LL) with the same widths; fertile window [ovu−5, ovu+1]; the high width is the low width or one more |
| Forecast.ForecastSpacing | src/lib/cycle-calculations.ts:341-382 | the first cycle starts at the predicted next period, and consecutive cycles start CL apart |
| Forecast.ForecastWidths | src/lib/cycle-calculations.ts:345-383 | the widths of cycle k are the floor and the ceiling of √((k+1)·σ²) |
| Forecast.WindowsWiden | src/lib/cycle-calculations.ts:383 | the widths never shrink as k grows |
| Forecast.ThreeDayDeviation | src/lib/cycle-calculations.ts:345-356 | with σ = 3, the first cycle is ±3 days and the third is −5/+6 days (floor and ceiling of √27) |
| Engine.SummarizeToday | src/lib/cycle-calculations.ts:406-455 | level 3 iff PEAK_LH; level 2 iff FERTILE_MID or POST_OVU_PENDING; level 1 iff PRE_FERTILE or ANOVULATORY_SUSPECTED and today is within [ovulation mid − 5, ovulation mid + 1]; fertile iff level > 0; period iff MENSTRUATION; ovulation iff PEAK_LH or confirmed today; confirmed iff a confirmed date; phase menstrual/luteal/ovulatory/follicular accordingly |
| Engine.CurrentStart | src/lib/cycle-calculations.ts:397 | the last accepted start, or today; its properties are `NoStartsMeansDayOne` and `CurrentStartIsLastStart` |
| Engine.RunEngine | src/lib/cycle-calculations.ts:392-465 | the statistics are `HistoryStatistics`; the current cycle, from the last start or today, satisfies everything `analyzeCurrent` promises; six future cycles from its next-period mid; today's summary as above |
| Engine.NoStartsMeansDayOne | src/lib/cycle-calculations.ts:392-400 | with no accepted start the current cycle begins today and today is day 1 |
| Engine.CurrentStartIsLastStart | src/lib/cycle-calculations.ts:397 | with starts, the current cycle begins at a date with non-spotting flow, no earlier than any start |
| Engine.NotFertileWhenBleedingOrConfirmed | src/lib/cycle-calculations.ts:410-416 | MENSTRUATION and OVU_CONFIRMED give level 0 and not fertile |
| Engine.StatisticalLevelOneOnlyDayAfter | src/lib/cycle-calculations.ts:432-443 | with no peak and the cycle past bleeding, level 1 occurs only on the day after the predicted ovulation |
| Engine.AnovulatoryIsNeverFertile | src/lib/cycle-calculations.ts:432-443 | an ANOVULATORY_SUSPECTED day is never fertile and is shown as follicular |

## Left out

- Floating point: the model computes the means, the sample deviation and its
  square roots exactly. The IEEE rounding of `Math.sqrt`, of the divisions
  and of comparisons such as `baseline + 0.15` is not modelled.
  Temperatures are integer hundredths of a degree.
- Numbers.Median: for an even count of values the source can return a
  half-integer (x.5); the model's median is that value rounded down. The
  source subtracts before `setDate` truncates the day count. With luteal
  lengths [13, 14] and a median cycle length of 28, the source's ovulation
  offset is 28 − 13.5 = 14.5, truncated to 14 days. The model's is
  28 − 13 = 15, one day later. The cycle-day comparison at
  `cycle-calculations.ts:240` uses the fraction as is, so it differs the same
  way.
  A half-integer cycle median differs only in that comparison. With lengths
  [28, 29] and a luteal median of 14, the source's median is 28.5 and the
  model's is 28. Every `addDays` result still agrees, because `setDate`
  truncates 28.5 and 14.5 just as the model rounds down. At
  `cycle-calculations.ts:240`, though, an estimated ovulation day of 14.5
  makes the source mark cycle days 10 to 15 FERTILE_MID, while the model's
  14 marks days 9 to 15. So on cycle day 9 the model reports FertileMid
  (level 2) where the source reports PRE_FERTILE (level 0).
- Forecast.Uncertainty: the source squares the floating-point deviation
  again (`stdDev * stdDev`). The model uses the exact variance, so it does
  not capture an IEEE error that could move a floor or ceiling by one.
- Date conversion: days are integers. `diffDays` is exact, because
  `new Date('YYYY-MM-DD')` parses as UTC midnight. Only `addDays` depends on
  the timezone: it steps the local date with `setDate` and reads the result
  back in UTC with `toISOString`, so a daylight-saving change between the two
  dates can shift its result by one day. The model does not capture that
  shift. The clock read by `toLocalISO()` (src/lib/utils.ts) is the parameter
  `today`.
- The entry record is a list with strictly increasing dates, not a
  JavaScript object keyed by date string. Field validation (zod schemas) is
  not part of this model.
- Entry fields the engine never reads (cervical mucus, intercourse, mood,
  symptoms, notes) and the `cycleSettings` of the input are not modelled.
- `calculatePredictions`, the legacy wrapper that repackages the result as
  JavaScript `Date` objects, is not modelled.
- The UI, persistence, backup, authentication and LLM-assistant code around
  the engine is not part of this model.
