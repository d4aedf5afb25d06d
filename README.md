# Cycle estimator of the period tracker, in Dafny

The tracker keeps the start dates of past periods in a spreadsheet and, on
every page load, predicts a window for the next one. The prediction is the
only algorithmic part of the program:

1. read the date column and drop unreadable rows;
2. sort the dates;
3. take the day differences between neighbours (the cycle gaps);
4. drop outlying gaps with the 1.5 IQR rule, using pandas' default
   (type 7, linear interpolation) quartiles;
5. if fewer than two gaps survive, keep instead the gaps strictly between
   15 and 50 days;
6. average the valid gaps with weight 2 for the last three (when there are
   three or more) and 1 otherwise;
7. take the population standard deviation, or 2 for a single gap;
8. cap it at 4 days to get the variation;
9. build the window as the last date plus `round(average -/+ variation)`
   (Python's `round`, half to even);
10. label the reliability High / Moderate / Variable from the uncapped
    deviation, with thresholds 3 and 5.

The model works on day numbers (`int`). Every statistic is an exact
`real`. The square root inside numpy's `std` is a parameter
`root: real -> real`. Lemmas that need its value assume `IsSqrt(root)`:
for every x ≥ 0, `root(x)` is non-negative and its square is x.

Modules:

- `Sorting`: insertion sort as a function, with uniqueness of the sorted
  permutation.
- `Filtering`: order-preserving selection, shared by both gap filters.
- `Statistics`: weighted average, population variance, type-7 quantiles.
- `Rounding`: round half to even.
- `CycleEstimator`: the pipeline itself, from sheet rows to an `Outcome`.
- `EstimatorTheorems`: what the pipeline guarantees as a whole.
- `WorkedExamples`: the estimator on concrete histories.

Beyond the per-step contracts, the main results are:

- `PredictsExactly`: a window is built exactly when there are three or
  more dates, or two dates more than 15 and fewer than 50 days apart.
  This rests on `IqrKeepsAtLeastTwo`: with two or more gaps, the IQR rule
  never leaves fewer than two. So the fallback filter only ever acts on a
  single gap.
- `PredictIgnoresOrder`: the order in which dates were logged does not
  matter.
- `AverageWithRecentTwice` and `RecencyPullsAverage`: with three or more
  gaps, the weighted average counts each of the last three gaps twice. It
  lies above the plain mean exactly when the last three gaps average above
  it. With fewer gaps it is the plain mean (`FewGapsPlainMean`).
- `ReliabilityFromVariance`: the reliability label read off the variance,
  with thresholds 9 and 25.
- `EvenlySpacedHistory`: three or more evenly spaced dates predict a
  zero-width window exactly one cycle after the latest date, with High
  reliability.
- `TwoDatesWindow`: two dates c days apart, with 15 < c < 50, predict the
  window from c - 2 to c + 2 days after the later date (average c, the
  fixed variation of 2 days for a single gap, High). With any other c two
  dates give no window (`PredictsExactly`).

## Model

| member | source | states |
|---|---|---|
| Sorting.Sort | app.py:22 | the result is in ascending order and is a permutation (same multiset, same length) of the input |
| Sorting.SortDependsOnlyOnMultiset | app.py:22 | two date lists with the same elements sort to the same list |
| Sorting.SortEnds | app.py:22 | after sorting, the first and last dates are the earliest and latest logged |
| Filtering.Filter | app.py:34 | selection keeps only elements of the input that pass the test, never more elements than the input |
| Filtering.FilterIsSubsequence | app.py:34 | selection keeps the original order (the result is a subsequence) |
| Filtering.FilterCounts | app.py:34 | each value that passes the test is kept as often as it occurs in the input, any other value not at all |
| Filtering.FilterKeepsAll | app.py:34 | if every element passes the test, selection returns the input unchanged |
| Statistics.WeightedAverage | app.py:45 | the average times the sum of the weights is the weighted sum of the gaps |
| Statistics.WeightedAverageWithinRange | app.py:45 | with positive weights the average lies between the smallest and the largest gap |
| Statistics.WeightedAverageOfEqual | app.py:45 | if every gap equals c, the weighted average is c |
| Statistics.Variance | app.py:46 | the population variance (divisor n) is non-negative |
| Statistics.VarianceZeroIffAllEqual | app.py:46 | the variance is zero exactly when all gaps are equal |
| Statistics.Position | app.py:31-32 | the quantile position (n - 1) p lies between the first and the last index |
| Statistics.PositionMonotone | app.py:31-32 | a larger p gives a position no further left |
| Statistics.Interpolate | app.py:31-32 | a fraction f in [0, 1] of the way from a to b lies between a and b, and is a when f is 0 |
| Statistics.InterpolateMonotone | app.py:31-32 | moving the fraction right never moves the interpolated point left |
| Statistics.ValueAt | app.py:31-32 | the value at a position of a sorted list lies between the order statistics around that position |
| Statistics.ValueAtMonotone | app.py:31-32 | along a sorted list, a position further right never gives a smaller value |
| Statistics.OrderQuantileAtWholePosition | app.py:31-32 | when (n - 1) p is whole, the quantile is that order statistic exactly |
| Statistics.OrderQuantile | app.py:31-32 | the type-7 quantile of a sorted list lies between the order statistics at floor((n-1)p) and the next one |
| Statistics.Quantile | app.py:31-32 | pandas' default quantile of unsorted gaps (sort, then the type-7 interpolation of `OrderQuantile`) lies between the smallest and the largest gap |
| Statistics.OrderQuantileMonotone | app.py:31-33 | the quantile does not decrease as p grows, so Q1 <= Q3 and the IQR is non-negative |
| Statistics.QuartileRanks | app.py:31-32 | the quartile positions of n values have whole parts (n-1) div 4 and 3(n-1) div 4 |
| Rounding.RoundHalfEven | app.py:51-52 | Python `round`: within one half of x, and even whenever x is exactly halfway |
| Rounding.RoundMonotone | app.py:51-52 | rounding never reverses the order of two numbers |
| Rounding.RoundOfInteger | app.py:51-52 | a whole number rounds to itself |
| CycleEstimator.Gaps | app.py:27 | n >= 2 dates give n - 1 gaps, fewer give none |
| CycleEstimator.GapsOfSortedNonNegative | app.py:22-27 | every gap between sorted dates is >= 0 |
| CycleEstimator.OrderFence | app.py:31-34 | the fence [Q1 - 1.5 IQR, Q3 + 1.5 IQR] contains both quartiles |
| CycleEstimator.IqrFence | app.py:28-34 | the same for unsorted gaps, in terms of their quartiles |
| CycleEstimator.IqrFilter | app.py:34 | the kept gaps are a subsequence of the gaps; each value inside the inclusive fence is kept as often as it occurs, any other value not at all |
| CycleEstimator.FallbackFilter | app.py:37 | the kept gaps are a subsequence of all gaps; each value with 15 < g < 50 is kept as often as it occurs, any other value not at all |
| CycleEstimator.ValidGaps | app.py:34-37 | the valid gaps are a subsequence of the gaps, never longer |
| CycleEstimator.Weights | app.py:41-43 | one weight per valid gap, all positive |
| CycleEstimator.FillWeights | app.py:41-43 | a fresh array of ones with its last three entries set to 2 holds exactly `Weights(n)` |
| CycleEstimator.Dispersion | app.py:46 | a single gap gives 2; several give a non-negative value whose square is the population variance |
| CycleEstimator.Variation | app.py:48 | `min(d, 4)`: at most 4, at most d, one of the two, non-negative when d is |
| CycleEstimator.Window | app.py:49-52 | each end is the last date plus a correct rounding of average -/+ variation, and start <= end when the variation is >= 0 |
| CycleEstimator.RateReliability | app.py:56 | High iff d < 3, Moderate iff 3 <= d < 5, Variable iff d >= 5 |
| CycleEstimator.LastIsLatest | app.py:49 | the last sorted date is the latest date logged |
| CycleEstimator.Estimate | app.py:41-52 | the estimate is anchored at the last date; with a true square root, 0 <= variation <= 4 and start <= end |
| CycleEstimator.Forecast | app.py:25-52 | on sorted dates, a window exists iff there are >= 2 dates and some valid gap; it is anchored at the last date, 0 <= variation <= 4, start <= end; never "no data" |
| CycleEstimator.Predict | app.py:22-52 | on dates in any order: a window needs >= 2 dates, is anchored at the latest date, 0 <= variation <= 4, start <= end |
| CycleEstimator.ReadableDates | app.py:21-23 | each date occurs as often as rows hold it as a readable date, and no other date occurs; never more dates than rows |
| CycleEstimator.Track | app.py:19-68 | "no data" exactly for an empty sheet; a window needs at least two readable dates and is anchored at the latest of them |
| EstimatorTheorems.GapsRebuildDates | app.py:27 | each date is the first date plus the sum of the gaps before it (the gaps determine the dates) |
| EstimatorTheorems.GapsSpan | app.py:27 | the gaps add up to last date minus first date |
| EstimatorTheorems.FirstIsEarliest | app.py:22 | the first sorted date is the earliest date logged |
| EstimatorTheorems.TwoGapQuartiles | app.py:31-32 | two sorted gaps have quartiles a quarter and three quarters of the way between them |
| EstimatorTheorems.ThreeGapQuartiles | app.py:31-32 | three sorted gaps have as quartiles the midpoints of the adjacent pairs |
| EstimatorTheorems.InnerPairBetweenQuartiles | app.py:31-32 | of four or more sorted gaps, the two just after position floor((n-1)/4) lie between Q1 and Q3 |
| EstimatorTheorems.TwoInsideFence | app.py:31-34 | of two or more sorted gaps, two distinct positions always lie inside the fence |
| EstimatorTheorems.IqrKeepsAtLeastTwo | app.py:31-36 | with two or more gaps the IQR filter keeps at least two, so the fallback does not apply |
| EstimatorTheorems.IqrKeepsSingleGap | app.py:31-34 | a single gap is its own fence and is kept |
| EstimatorTheorems.ValidGapsCases | app.py:34-37 | two or more gaps: the valid gaps are the IQR survivors; one gap: they are the fallback's result |
| EstimatorTheorems.ForecastOfManyDates | app.py:25-39 | three or more sorted dates always get a window |
| EstimatorTheorems.ForecastOfTwoDates | app.py:25-39 | two sorted dates get a window exactly when 15 < second - first < 50 |
| EstimatorTheorems.PredictsExactly | app.py:25-39 | a window iff >= 3 dates, or 2 dates 15 < span < 50 days apart; fewer than 2 dates report how many were logged; otherwise no valid gaps |
| EstimatorTheorems.PredictOfSorted | app.py:22 | dates already in ascending order are forecast as they are |
| EstimatorTheorems.PredictIgnoresOrder | app.py:22 | reordering the logged dates does not change the outcome |
| EstimatorTheorems.FewGapsPlainMean | app.py:41-45 | with fewer than three valid gaps the weighted average is the plain mean |
| EstimatorTheorems.WeightsPeel | app.py:41-43 | with more than three gaps the first weight is 1 and the rest are the weights of one fewer gap |
| EstimatorTheorems.RecentGapsCountTwice | app.py:41-45 | with three or more gaps the weighted sum is the sum plus the sum of the last three, and the weights add to n + 3 |
| EstimatorTheorems.AverageWithRecentTwice | app.py:41-45 | with three or more gaps the weighted average is (sum + sum of last three) / (n + 3) |
| EstimatorTheorems.RecencyPullsAverage | app.py:40-45 | with three or more gaps the weighted average is above (below) the plain mean exactly when the last three gaps average above (below) it |
| EstimatorTheorems.RootOfSquare | app.py:46 | a true square root returns r for the square of r >= 0 |
| EstimatorTheorems.ReliabilityFromVariance | app.py:46-56 | one gap rates High; otherwise High iff variance < 9, Moderate iff 9 <= variance < 25, Variable iff variance >= 25 |
| EstimatorTheorems.Uniform | app.py:31-32 | both quartiles of equal gaps are that gap |
| EstimatorTheorems.EqualGapsEstimate | app.py:31-46 | two or more equal gaps are all valid, average to themselves and have zero dispersion |
| EstimatorTheorems.EqualGapsPrediction | app.py:41-56 | from two or more equal gaps c the estimate is last + c for both ends, variation 0, High |
| EstimatorTheorems.EvenlySpacedDates | app.py:25-56 | three or more sorted dates c days apart predict a zero-width window c days after the last date, High |
| EstimatorTheorems.EvenlySpacedHistory | app.py:22-56 | the same for dates in any order, anchored at the latest date |
| EstimatorTheorems.SingleGapValid | app.py:34-37 | a single gap strictly between 15 and 50 days is the one valid gap |
| EstimatorTheorems.SingleGapEstimate | app.py:41-56 | from a single gap c: average c, variation 2, window c - 2 to c + 2 days after the last date, High |
| EstimatorTheorems.ForecastFromValid | app.py:39-52 | with two or more dates and some valid gap, the forecast is the estimate from the valid gaps at the last date |
| EstimatorTheorems.TwoDatesForecast | app.py:25-56 | two sorted dates c days apart (15 < c < 50) are forecast from their single gap: window last + c - 2 to last + c + 2, average c, variation 2, High |
| EstimatorTheorems.TwoDatesWindow | app.py:22-56 | the same for two dates d and d + c logged in either order: window d + 2c - 2 to d + 2c + 2, anchored at d + c, never zero-width |
| WorkedExamples.TwoCloseGapsFence | app.py:31-34 | gaps 28 and 29 have quartiles 28.25 and 28.75 and fence [27.5, 29.5] |
| WorkedExamples.TwoCloseGapsAreValid | app.py:34-37 | both gaps lie in that fence, so both are valid |
| WorkedExamples.TwoCloseGapsEstimate | app.py:41-56 | gaps 28, 29 after day 57: average 28.5, variation 0.5, window days 85 to 86, High |
| WorkedExamples.ThreeDatesForecast | app.py:25-56 | dates 0, 28, 57 give that prediction |
| WorkedExamples.ThreeDatesAnyOrder | app.py:22-56 | the dates 0, 28, 57 logged in any order give that same prediction |
| WorkedExamples.OutlierFence | app.py:31-33 | gaps 28, 29, 30, 31, 90 have quartiles 29 and 31 and fence [26, 34] |
| WorkedExamples.OutlierOutsideFence | app.py:34 | within [26, 34] the 90-day gap is dropped and the others kept in order |
| WorkedExamples.OutlierDropped | app.py:34 | the IQR filter turns 28, 29, 30, 31, 90 into 28, 29, 30, 31 |
| WorkedExamples.TwoDistantDates | app.py:36-39 | two dates 60 days apart give no window (no valid gap) |
| WorkedExamples.UnreadableRow | app.py:21-25 | a sheet with one unreadable row asks for more dates (0 logged) rather than reporting no data |

## Left out

- The page, widgets, metrics and messages are not modelled. This covers
  the text shown for each `Outcome` and the display rounding
  `round(avg_cycle, 1)` and `round(variation, 1)`. These are UI.
- Reading and writing the spreadsheet is not modelled: the connection,
  `conn.read`, `conn.update`, cache clearing and reruns. This is remote
  I/O.
- The log, delete-last and wipe handlers are not modelled. They are
  persistence glue around the sheet.
- Date parsing with `dayfirst` and `errors='coerce'` is not modelled, nor
  column-name stripping. A row's date cell is given already read, as a
  `Cell` (a day number or `Unparsed`). pandas' parser cannot be seen
  from here.
- Calendar arithmetic is not modelled (`timedelta`, `strftime`). Dates
  are day numbers, and adding a day count is integer addition.
- IEEE-754 floating point is not modelled. All statistics are exact
  reals, so rounding ties are decided on exact values. Floats may land
  just beside a tie.
- CycleEstimator.Dispersion: takes the square root as a parameter instead
  of numpy's, because Dafny has no real square root. Its contract and
  every lemma about its value hold under `IsSqrt(root)` only.
- `sort_values` at app.py:22 reorders whole rows with pandas' default
  quicksort, which is not stable. Only the date values are used
  afterwards, so the order among rows with equal dates cannot affect the
  outcome. The model sorts the day numbers alone.

## Two consequences of the code worth knowing

- Dispersion: `np.std` divides by n (population deviation), not n - 1.
  For gaps 28 and 29 it is 0.5, where the sample deviation would be
  about 0.707 (`WorkedExamples.TwoCloseGapsEstimate`). Either value gives
  the window of day numbers 85 to 86 counted from 1 January 2024, i.e. 26
  to 27 March.
- Fallback: with type-7 quartiles the inclusive fence always keeps at
  least two of two or more gaps (`EstimatorTheorems.IqrKeepsAtLeastTwo`).
  So the fallback at app.py:36-37 only ever decides the single gap between
  two dates.
