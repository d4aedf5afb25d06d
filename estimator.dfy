/** The cycle-prediction estimator of the period tracker: from the logged
    start dates (as day numbers) to a predicted window for the next period,
    its average cycle length, its variation and a reliability label. */
module CycleEstimator {
  import opened Sorting
  import opened Filtering
  import opened Statistics
  import opened Rounding

  /** Fewest logged dates for which a prediction is attempted. */
  const MinDates: nat := 2
  /** Fewest survivors of the outlier filter before the fallback takes over. */
  const MinSurvivors: nat := 2
  /** Quartile probabilities and the fence factor of the outlier rule. */
  const LowerQuartile: real := 0.25
  const UpperQuartile: real := 0.75
  const FenceFactor: real := 1.5
  /** The fallback keeps gaps strictly between these bounds (in days). */
  const FallbackLow: int := 15
  const FallbackHigh: int := 50
  /** The most recent cycles weigh this much more than the others. */
  const RecentCount: nat := 3
  const RecentWeight: real := 2.0
  /** Dispersion assumed when a single gap is available. */
  const SingleGapDispersion: real := 2.0
  /** The variation is capped at this many days. */
  const VariationCap: real := 4.0
  /** Reliability thresholds on the (uncapped) dispersion. */
  const HighBelow: real := 3.0
  const ModerateBelow: real := 5.0

  datatype Reliability = High | Moderate | Variable

  datatype Prediction = Prediction(
    windowStart: int,
    windowEnd: int,
    averageCycle: real,
    variation: real,
    lastDate: int,
    reliability: Reliability)

  /** Why no window is shown: an empty sheet, fewer than two readable
      dates, or no gap that the filters accept. */
  datatype Shortfall = NoData | TooFewDates(logged: nat) | NoReliableGaps

  datatype Outcome = NoPrediction(reason: Shortfall) | Predicted(prediction: Prediction)

  /** The date column of one sheet row: a day number, or a value that does
      not read as a date. */
  datatype Cell = Parsed(day: int) | Unparsed

  /** `root` behaves as the square root on non-negative arguments. */
  ghost predicate IsSqrt(root: real -> real) {
    forall x :: x >= 0.0 ==> root(x) >= 0.0 && Square(root(x)) == x
  }

  /** The day differences between adjacent dates. */
  function Gaps(dates: seq<int>): (g: seq<int>)
    ensures |g| == if |dates| < 2 then 0 else |dates| - 1
  {
    if |dates| < 2 then []
    else seq(|dates| - 1, i requires 0 <= i < |dates| - 1 => dates[i + 1] - dates[i])
  }

  /** Dates in ascending order are never more than zero days apart in the
      wrong direction: every gap is non-negative. */
  lemma GapsOfSortedNonNegative(dates: seq<int>)
    requires Sorted(dates)
    ensures forall x :: x in Gaps(dates) ==> x >= 0
  {
    var g := Gaps(dates);
    forall x | x in g
      ensures x >= 0
    {
      var i :| 0 <= i < |g| && g[i] == x;
      assert dates[i] <= dates[i + 1];
    }
  }

  /** The inclusive band [Q1 - 1.5 IQR, Q3 + 1.5 IQR] of the outlier rule,
      for gaps already in ascending order. It contains both quartiles. */
  function OrderFence(t: seq<int>): (band: (real, real))
    requires |t| > 0 && Sorted(t)
    ensures band.0 <= OrderQuantile(t, LowerQuartile) <= OrderQuantile(t, UpperQuartile) <= band.1
  {
    var q1 := OrderQuantile(t, LowerQuartile);
    var q3 := OrderQuantile(t, UpperQuartile);
    OrderQuantileMonotone(t, LowerQuartile, UpperQuartile);
    var iqr := q3 - q1;
    (q1 - FenceFactor * iqr, q3 + FenceFactor * iqr)
  }

  /** The outlier fence of the gaps, from their type-7 quartiles. */
  function IqrFence(gaps: seq<int>): (band: (real, real))
    requires |gaps| > 0
    ensures band.0 <= Quantile(gaps, LowerQuartile) <= Quantile(gaps, UpperQuartile) <= band.1
  {
    OrderFence(Sort(gaps))
  }

  /** The test `lo <= g <= hi`. */
  function Within(lo: real, hi: real): int -> bool {
    g => lo <= g as real <= hi
  }

  /** The test `lo < g < hi`. */
  function StrictlyBetween(lo: int, hi: int): int -> bool {
    g => lo < g < hi
  }

  /** The gaps inside the outlier fence, in their original order. */
  function IqrFilter(gaps: seq<int>): (kept: seq<int>)
    requires |gaps| > 0
    ensures IsSubsequence(kept, gaps)
    ensures forall x :: x in kept <==> x in gaps && IqrFence(gaps).0 <= x as real <= IqrFence(gaps).1
    ensures forall x ::
              multiset(kept)[x] == if IqrFence(gaps).0 <= x as real <= IqrFence(gaps).1 then multiset(gaps)[x] else 0
  {
    var band := IqrFence(gaps);
    FilterIsSubsequence(gaps, Within(band.0, band.1));
    FilterCounts(gaps, Within(band.0, band.1));
    Filter(gaps, Within(band.0, band.1))
  }

  /** The gaps strictly between 15 and 50 days, in their original order. */
  function FallbackFilter(gaps: seq<int>): (kept: seq<int>)
    ensures IsSubsequence(kept, gaps)
    ensures forall x :: x in kept <==> x in gaps && FallbackLow < x < FallbackHigh
    ensures forall x :: multiset(kept)[x] == if FallbackLow < x < FallbackHigh then multiset(gaps)[x] else 0
  {
    FilterIsSubsequence(gaps, StrictlyBetween(FallbackLow, FallbackHigh));
    FilterCounts(gaps, StrictlyBetween(FallbackLow, FallbackHigh));
    Filter(gaps, StrictlyBetween(FallbackLow, FallbackHigh))
  }

  /** The outlier filter's survivors, or the fallback's when fewer than two
      survive. Either way a subsequence of the gaps. */
  function ValidGaps(gaps: seq<int>): (valid: seq<int>)
    requires |gaps| > 0
    ensures IsSubsequence(valid, gaps)
    ensures |valid| <= |gaps|
  {
    var kept := IqrFilter(gaps);
    if |kept| < MinSurvivors then FallbackFilter(gaps) else kept
  }

  /** The recency weights: one per valid gap, 2 for the last three when
      there are at least three gaps, 1 otherwise. */
  function Weights(n: nat): (w: seq<real>)
    ensures |w| == n && Positive(w)
  {
    seq(n, i requires 0 <= i < n => if n >= RecentCount && i >= n - RecentCount then RecentWeight else 1.0)
  }

  /** Builds the weights in place: an array of ones whose last three
      entries are then overwritten with 2. */
  method FillWeights(n: nat) returns (w: array<real>)
    ensures fresh(w)
    ensures w[..] == Weights(n)
  {
    w := new real[n](_ => 1.0);
    if n >= RecentCount {
      var i := n - RecentCount;
      while i < n
        invariant n - RecentCount <= i <= n
        invariant forall j :: 0 <= j < n ==> w[j] == if n - RecentCount <= j < i then RecentWeight else 1.0
      {
        w[i] := RecentWeight;
        i := i + 1;
      }
    }
  }

  /** numpy's `std` of the valid gaps (via `root`) when there are several,
      and 2 days for a single gap. */
  function Dispersion(valid: seq<int>, root: real -> real): (d: real)
    requires |valid| > 0
    ensures |valid| == 1 ==> d == SingleGapDispersion
    ensures |valid| > 1 && IsSqrt(root) ==> d >= 0.0 && Square(d) == Variance(valid)
    ensures IsSqrt(root) ==> d >= 0.0
  {
    if |valid| > 1 then root(Variance(valid)) else SingleGapDispersion
  }

  /** `min(d, 4)`. */
  function Variation(d: real): (v: real)
    ensures v <= VariationCap && v <= d
    ensures v == d || v == VariationCap
    ensures d >= 0.0 ==> v >= 0.0
  {
    if VariationCap < d then VariationCap else d
  }

  /** The predicted window: the last date shifted by the rounded average
      minus and plus the variation. Each end is within half a day of the
      exact value, and a non-negative variation never inverts the window. */
  function Window(lastDate: int, average: real, variation: real): (w: (int, int))
    ensures RoundsTo(average - variation, w.0 - lastDate)
    ensures RoundsTo(average + variation, w.1 - lastDate)
    ensures variation >= 0.0 ==> w.0 <= w.1
  {
    var early, late := average - variation, average + variation;
    var toStart, toEnd := RoundHalfEven(early), RoundHalfEven(late);
    assert variation >= 0.0 ==> toStart <= toEnd by {
      if variation >= 0.0 {
        RoundMonotone(early, late);
      }
    }
    (lastDate + toStart, lastDate + toEnd)
  }

  function RateReliability(d: real): (r: Reliability)
    ensures r == High <==> d < HighBelow
    ensures r == Moderate <==> HighBelow <= d < ModerateBelow
    ensures r == Variable <==> ModerateBelow <= d
  {
    if d < HighBelow then High else if d < ModerateBelow then Moderate else Variable
  }

  /** After sorting, the last date is the latest one logged. */
  lemma LastIsLatest(history: seq<int>)
    requires |history| > 0
    ensures Sort(history)[|history| - 1] == Max(history)
  {
    SortEnds(history);
    var latest := Max(history);
    assert latest in history;
  }

  /** The estimate from a non-empty list of valid gaps and the last logged
      date: recency-weighted average, dispersion, capped variation, window
      and reliability label. */
  function Estimate(valid: seq<int>, last: int, root: real -> real): (p: Prediction)
    requires |valid| > 0
    ensures p.lastDate == last
    ensures IsSqrt(root) ==> 0.0 <= p.variation <= VariationCap && p.windowStart <= p.windowEnd
  {
    var average := WeightedAverage(valid, Weights(|valid|));
    var d := Dispersion(valid, root);
    var v := Variation(d);
    var window := Window(last, average, v);
    Prediction(window.0, window.1, average, v, last, RateReliability(d))
  }

  /** The estimator on dates already in ascending order: fewer than two
      dates, or no valid gap, give no prediction; otherwise the estimate
      is anchored at the last date. */
  function Forecast(dates: seq<int>, root: real -> real): (o: Outcome)
    ensures o.Predicted? <==> |dates| >= MinDates && ValidGaps(Gaps(dates)) != []
    ensures o.Predicted? ==> o.prediction.lastDate == dates[|dates| - 1]
    ensures o.Predicted? && IsSqrt(root) ==>
      0.0 <= o.prediction.variation <= VariationCap && o.prediction.windowStart <= o.prediction.windowEnd
    ensures o.NoPrediction? ==> o.reason != NoData
  {
    if |dates| < MinDates then NoPrediction(TooFewDates(|dates|))
    else
      var valid := ValidGaps(Gaps(dates));
      if valid == [] then NoPrediction(NoReliableGaps)
      else Predicted(Estimate(valid, dates[|dates| - 1], root))
  }

  /** The whole estimator, on the logged dates in any order: sort them,
      then forecast. */
  function Predict(history: seq<int>, root: real -> real): (o: Outcome)
    ensures o.Predicted? ==> |history| >= MinDates && o.prediction.lastDate == Max(history)
    ensures o.Predicted? && IsSqrt(root) ==>
      0.0 <= o.prediction.variation <= VariationCap && o.prediction.windowStart <= o.prediction.windowEnd
    ensures o.NoPrediction? ==> o.reason != NoData
  {
    var dates := Sort(history);
    if dates == [] then Forecast(dates, root)
    else LastIsLatest(history); Forecast(dates, root)
  }

  /** The readable dates of the sheet, in row order; unreadable rows are
      dropped. */
  function ReadableDates(rows: seq<Cell>): (dates: seq<int>)
    ensures |dates| <= |rows|
    ensures forall d :: d in dates <==> Parsed(d) in rows
    ensures forall d :: multiset(dates)[d] == multiset(rows)[Parsed(d)]
  {
    if rows == [] then []
    else
      var rest := ReadableDates(rows[1..]);
      assert rows == [rows[0]] + rows[1..];
      assert multiset(rows) == multiset{rows[0]} + multiset(rows[1..]);
      if rows[0].Parsed? then [rows[0].day] + rest else rest
  }

  /** The tracker's report for a sheet: an empty sheet has no data;
      otherwise the readable dates are sorted and forecast, and a window
      needs two readable dates and is anchored at the latest of them. */
  function Track(rows: seq<Cell>, root: real -> real): (o: Outcome)
    ensures o == NoPrediction(NoData) <==> |rows| == 0
    ensures o.Predicted? ==> |ReadableDates(rows)| >= MinDates
    ensures o.Predicted? ==> o.prediction.lastDate == Max(ReadableDates(rows))
  {
    if |rows| == 0 then NoPrediction(NoData)
    else Predict(ReadableDates(rows), root)
  }
}
