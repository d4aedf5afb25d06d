/** What the estimator guarantees, stated about `CycleEstimator` as a whole:
    how the gaps rebuild the dates, when the fallback filter can take over,
    exactly which histories get a prediction, and what the recency weights,
    the dispersion and the reliability label amount to. */
module EstimatorTheorems {
  import opened Sorting
  import opened Filtering
  import opened Statistics
  import opened Rounding
  import opened CycleEstimator

  lemma TotalAppend(s: seq<int>, x: int)
    ensures Total(s + [x]) == Total(s) + x
  {
    TotalConcat(s, [x]);
  }

  /** The gaps determine the dates up to the first one: each date is the
      first plus the sum of the gaps before it. */
  lemma {:induction false} GapsRebuildDates(dates: seq<int>, k: nat)
    requires k < |dates|
    ensures dates[k] == dates[0] + Total(Gaps(dates)[..k])
  {
    if k > 0 {
      var g := Gaps(dates);
      GapsRebuildDates(dates, k - 1);
      assert g[..k] == g[..k - 1] + [g[k - 1]];
      TotalAppend(g[..k - 1], g[k - 1]);
    }
  }

  /** In particular the gaps add up to the span from first to last date. */
  lemma GapsSpan(dates: seq<int>)
    requires |dates| > 0
    ensures Total(Gaps(dates)) == dates[|dates| - 1] - dates[0]
  {
    var n := |dates|;
    GapsRebuildDates(dates, n - 1);
    assert Gaps(dates)[..n - 1] == Gaps(dates);
  }

  /** After sorting, the first date is the earliest one logged. */
  lemma FirstIsEarliest(history: seq<int>)
    requires |history| > 0
    ensures Sort(history)[0] == Min(history)
  {
    SortEnds(history);
    var earliest := Min(history);
    assert earliest in history;
  }

  /** Two ascending gaps: the quartiles lie a quarter and three quarters of
      the way from the first to the second. */
  lemma TwoGapQuartiles(t: seq<int>)
    requires |t| == 2 && Sorted(t)
    ensures OrderQuantile(t, LowerQuartile) == t[0] as real + (t[1] as real - t[0] as real) * 0.25
    ensures OrderQuantile(t, UpperQuartile) == t[0] as real + (t[1] as real - t[0] as real) * 0.75
  {
    assert Position(2, LowerQuartile) == 0.25 && Position(2, UpperQuartile) == 0.75;
    assert OrderQuantile(t, LowerQuartile) == ValueAt(t, 0.25) == Interpolate(t[0], t[1], 0.25);
    assert OrderQuantile(t, UpperQuartile) == ValueAt(t, 0.75) == Interpolate(t[0], t[1], 0.75);
  }

  /** Three ascending gaps: the quartiles are the midpoints of the two
      adjacent pairs. */
  lemma ThreeGapQuartiles(t: seq<int>)
    requires |t| == 3 && Sorted(t)
    ensures OrderQuantile(t, LowerQuartile) == t[0] as real + (t[1] as real - t[0] as real) * 0.5
    ensures OrderQuantile(t, UpperQuartile) == t[1] as real + (t[2] as real - t[1] as real) * 0.5
  {
    assert Position(3, LowerQuartile) == 0.5 && Position(3, UpperQuartile) == 1.5;
    assert OrderQuantile(t, LowerQuartile) == ValueAt(t, 0.5) == Interpolate(t[0], t[1], 0.5);
    assert OrderQuantile(t, UpperQuartile) == ValueAt(t, 1.5) == Interpolate(t[1], t[2], 0.5);
  }

  /** Four or more ascending gaps: the two values just above the lower
      quartile's position still lie between the quartiles. */
  lemma InnerPairBetweenQuartiles(t: seq<int>)
    requires |t| >= 4 && Sorted(t)
    ensures (|t| - 1) / 4 + 2 <= 3 * (|t| - 1) / 4
    ensures OrderQuantile(t, LowerQuartile) <= t[(|t| - 1) / 4 + 1] as real
    ensures t[(|t| - 1) / 4 + 2] as real <= OrderQuantile(t, UpperQuartile)
  {
    var n := |t|;
    QuartileRanks(n);
    var k1, k3 := (n - 1) / 4, 3 * (n - 1) / 4;
    assert k1 + 2 <= k3;
    assert t[k1 + 2] <= t[k3];
  }

  /** Two positions of ascending gaps that the outlier fence always keeps. */
  lemma TwoInsideFence(t: seq<int>) returns (i: nat, j: nat)
    requires |t| >= 2 && Sorted(t)
    ensures i < j < |t|
    ensures Within(OrderFence(t).0, OrderFence(t).1)(t[i])
    ensures Within(OrderFence(t).0, OrderFence(t).1)(t[j])
  {
    var n := |t|;
    var q1 := OrderQuantile(t, LowerQuartile);
    var q3 := OrderQuantile(t, UpperQuartile);
    var band := OrderFence(t);
    assert band.0 <= q1 <= q3 <= band.1;
    if n >= 4 {
      InnerPairBetweenQuartiles(t);
      i, j := (n - 1) / 4 + 1, (n - 1) / 4 + 2;
      assert t[i] <= t[j];
    } else if n == 3 {
      ThreeGapQuartiles(t);
      i, j := 0, 1;
      assert q1 <= t[1] as real <= q3;
      assert band.0 <= t[0] as real;
    } else {
      TwoGapQuartiles(t);
      i, j := 0, 1;
      assert band.0 <= t[0] as real && t[1] as real <= band.1;
    }
  }

  /** Whenever there are at least two gaps, at least two survive the
      outlier filter: the fallback never replaces a list of two or more. */
  lemma IqrKeepsAtLeastTwo(gaps: seq<int>)
    requires |gaps| >= 2
    ensures |IqrFilter(gaps)| >= 2
  {
    var t := Sort(gaps);
    var band := OrderFence(t);
    assert band == IqrFence(gaps);
    var keep := Within(band.0, band.1);
    var i, j := TwoInsideFence(t);
    FilterKeepsTwo(t, i, j, keep);
    FilterSizeDependsOnlyOnMultiset(t, gaps, keep);
  }

  /** A single gap is its own quartiles, so the fence is that one value
      and the filter keeps it. */
  lemma IqrKeepsSingleGap(gap: int)
    ensures IqrFilter([gap]) == [gap]
  {
    assert Sort([gap]) == [gap];
    assert Quantile([gap], LowerQuartile) == gap as real;
    assert Quantile([gap], UpperQuartile) == gap as real;
  }

  /** The fallback takes over exactly when there is a single gap (two dates). */
  lemma ValidGapsCases(gaps: seq<int>)
    requires |gaps| > 0
    ensures |gaps| >= 2 ==> ValidGaps(gaps) == IqrFilter(gaps)
    ensures |gaps| == 1 ==> ValidGaps(gaps) == FallbackFilter(gaps)
  {
    if |gaps| >= 2 {
      IqrKeepsAtLeastTwo(gaps);
    } else {
      assert gaps == [gaps[0]];
      IqrKeepsSingleGap(gaps[0]);
    }
  }

  /** Three or more dates always get a window. */
  lemma ForecastOfManyDates(dates: seq<int>, root: real -> real)
    requires |dates| >= 3
    ensures Forecast(dates, root).Predicted?
  {
    var gaps := Gaps(dates);
    ValidGapsCases(gaps);
    IqrKeepsAtLeastTwo(gaps);
  }

  /** Two dates get a window exactly when they are more than 15 and fewer
      than 50 days apart. */
  lemma ForecastOfTwoDates(dates: seq<int>, root: real -> real)
    requires |dates| == 2
    ensures Forecast(dates, root).Predicted? <==> FallbackLow < dates[1] - dates[0] < FallbackHigh
  {
    var gaps := Gaps(dates);
    assert gaps == [dates[1] - dates[0]];
    ValidGapsCases(gaps);
    var kept := FallbackFilter(gaps);
    if FallbackLow < gaps[0] < FallbackHigh {
      assert gaps[0] in kept;
    } else {
      assert kept == [];
    }
  }

  /** Which histories get a window: three or more dates always; two dates
      only when they are more than 15 and fewer than 50 days apart. */
  lemma PredictsExactly(history: seq<int>, root: real -> real)
    ensures Predict(history, root).Predicted? <==>
      |history| >= 3 || (|history| == 2 && FallbackLow < Max(history) - Min(history) < FallbackHigh)
    ensures |history| < MinDates ==> Predict(history, root) == NoPrediction(TooFewDates(|history|))
    ensures Predict(history, root).NoPrediction? && |history| >= 2 ==> Predict(history, root).reason == NoReliableGaps
  {
    var dates := Sort(history);
    if |history| >= 3 {
      ForecastOfManyDates(dates, root);
    } else if |history| == 2 {
      ForecastOfTwoDates(dates, root);
      LastIsLatest(history);
      FirstIsEarliest(history);
    }
  }

  /** The order in which dates were logged does not matter. */
  lemma PredictIgnoresOrder(history: seq<int>, reordered: seq<int>, root: real -> real)
    requires multiset(history) == multiset(reordered)
    ensures Predict(history, root) == Predict(reordered, root)
  {
    SortDependsOnlyOnMultiset(history, reordered);
  }

  /** Dates logged in ascending order are forecast as they are. */
  lemma PredictOfSorted(dates: seq<int>, root: real -> real)
    requires Sorted(dates)
    ensures Predict(dates, root) == Forecast(dates, root)
  {
    SortOfSorted(dates);
  }

  /** With fewer than three gaps all weights are 1, so the weighted average
      is the plain mean. */
  lemma FewGapsPlainMean(g: seq<int>)
    requires 0 < |g| < RecentCount
    ensures WeightedAverage(g, Weights(|g|)) == Mean(g)
  {
    WeightedTotalOfConstant(g, Weights(|g|), 1.0);
  }

  /** Dropping the first of more than three gaps drops a weight of 1. */
  lemma WeightsPeel(n: nat)
    requires n > RecentCount
    ensures Weights(n) == [1.0] + Weights(n - 1)
  {
  }

  /** With three or more gaps the last three count twice: the weighted
      total is the sum of all gaps plus the sum of the last three, and the
      weights add up to n + 3. */
  lemma {:induction false} RecentGapsCountTwice(g: seq<int>)
    requires |g| >= RecentCount
    ensures WeightedTotal(g, Weights(|g|)) == Total(g) as real + Total(g[|g| - RecentCount..]) as real
    ensures TotalWeight(Weights(|g|)) == |g| as real + 3.0
  {
    var n := |g|;
    var w := Weights(n);
    if n == RecentCount {
      ThreeGapsCountTwice(g);
    } else {
      var rest := g[1..];
      RecentGapsCountTwice(rest);
      assert rest[|rest| - RecentCount..] == g[n - RecentCount..];
      WeightsPeel(n);
      assert w[0] == 1.0 && w[1..] == Weights(n - 1);
      PrependUnitWeight(g, w);
    }
  }

  /** Splitting off a first gap of weight 1. */
  lemma PrependUnitWeight(g: seq<int>, w: seq<real>)
    requires |g| == |w| > 0 && w[0] == 1.0
    ensures WeightedTotal(g, w) == g[0] as real + WeightedTotal(g[1..], w[1..])
    ensures TotalWeight(w) == 1.0 + TotalWeight(w[1..])
    ensures Total(g) as real == g[0] as real + Total(g[1..]) as real
  {
  }

  /** The base case: three gaps, all weighted 2. */
  lemma ThreeGapsCountTwice(g: seq<int>)
    requires |g| == RecentCount
    ensures WeightedTotal(g, Weights(3)) == Total(g) as real + Total(g) as real
    ensures TotalWeight(Weights(3)) == 6.0
  {
    var w := Weights(3);
    assert w == [2.0, 2.0, 2.0];
    assert g[1..][1..][1..] == [];
    assert w[1..][1..][1..] == [];
    var a, b, c := g[0] as real, g[1] as real, g[2] as real;
    assert WeightedTotal(g[1..][1..], w[1..][1..]) == 2.0 * c;
    assert WeightedTotal(g[1..], w[1..]) == 2.0 * b + 2.0 * c;
    assert WeightedTotal(g, w) == 2.0 * a + 2.0 * b + 2.0 * c;
    assert Total(g[1..][1..]) == g[2];
    assert Total(g) == g[0] + g[1] + g[2];
    assert Total(g) as real == a + b + c;
    assert TotalWeight(w[1..][1..]) == 2.0;
  }

  /** The sum of all gaps plus the sum of the last three, over n + 3: each
      of the last three gaps counted twice. */
  function DoubleRecentMean(g: seq<int>): real
    requires |g| >= RecentCount
  {
    (Total(g) as real + Total(g[|g| - RecentCount..]) as real) / (|g| as real + 3.0)
  }

  /** The recency-weighted average is the mean in which each of the last
      three gaps is counted twice. */
  lemma AverageWithRecentTwice(g: seq<int>)
    requires |g| >= RecentCount
    ensures WeightedAverage(g, Weights(|g|)) == DoubleRecentMean(g)
  {
    var w := Weights(|g|);
    var top := Total(g) as real + Total(g[|g| - RecentCount..]) as real;
    var bottom := |g| as real + 3.0;
    assert TotalWeight(w) == bottom && WeightedTotal(g, w) == top by {
      RecentGapsCountTwice(g);
    }
    var a := WeightedAverage(g, w);
    assert a == WeightedTotal(g, w) / TotalWeight(w);
    QuotientsOfEquals(WeightedTotal(g, w), TotalWeight(w), top, bottom);
    assert a == top / bottom;
  }

  lemma QuotientsOfEquals(x: real, y: real, x': real, y': real)
    requires x == x' && y == y' && y != 0.0
    ensures x / y == x' / y'
  {
  }

  /** The recency weighting pulls the average towards the last three gaps:
      it lies above the plain mean exactly when the last three gaps average
      above it, and below exactly when they average below. */
  lemma RecencyPullsAverage(g: seq<int>)
    requires |g| >= RecentCount
    ensures var recent := Mean(g[|g| - RecentCount..]);
      && (WeightedAverage(g, Weights(|g|)) > Mean(g) <==> recent > Mean(g))
      && (WeightedAverage(g, Weights(|g|)) < Mean(g) <==> recent < Mean(g))
  {
    var n := |g|;
    var recent := g[n - RecentCount..];
    var total, last := Total(g) as real, Total(recent) as real;
    assert |recent| == 3;
    AverageWithRecentTwice(g);
    RecencyAlgebra(WeightedAverage(g, Weights(n)), Mean(g), Mean(recent), n as real, total, last);
  }

  /** If a = (T + L) / (m + 3), mean = T / m and recent = L / 3, then
      a - mean = 3 (recent - mean) / (m + 3), so a - mean has the sign of
      recent - mean. */
  lemma RecencyAlgebra(a: real, mean: real, recent: real, m: real, total: real, last: real)
    requires m > 0.0
    requires a == (total + last) / (m + 3.0) && mean == total / m && recent == last / 3.0
    ensures a > mean <==> recent > mean
    ensures a < mean <==> recent < mean
  {
    assert a * (m + 3.0) == total + last;
    assert mean * m == total;
    assert recent * 3.0 == last;
    assert (a - mean) * (m + 3.0) == a * (m + 3.0) - mean * m - mean * 3.0;
    assert (a - mean) * (m + 3.0) == 3.0 * (recent - mean);
    SignOfProduct(a - mean, m + 3.0);
  }

  lemma SignOfProduct(x: real, y: real)
    requires y > 0.0
    ensures x > 0.0 <==> x * y > 0.0
    ensures x < 0.0 <==> x * y < 0.0
  {
    if x > 0.0 {
      MulLeftStrict(0.0, x, y);
    } else if x < 0.0 {
      MulLeftStrict(x, 0.0, y);
    }
  }

  /** The square root of a square is the non-negative number squared. */
  lemma RootOfSquare(root: real -> real, r: real)
    requires IsSqrt(root) && r >= 0.0
    ensures root(Square(r)) == r
  {
    SquareZero(r);
    SquareOrder(root(Square(r)), r);
  }

  /** Reliability read off the variance of several gaps: High exactly when
      the variance is below 9, Moderate when it is in [9, 25), Variable
      from 25 on. A single gap always rates High (its dispersion is 2). */
  lemma ReliabilityFromVariance(valid: seq<int>, root: real -> real)
    requires |valid| > 0 && IsSqrt(root)
    ensures var r := RateReliability(Dispersion(valid, root));
      if |valid| == 1 then r == High
      else
        && (r == High <==> Variance(valid) < 9.0)
        && (r == Moderate <==> 9.0 <= Variance(valid) < 25.0)
        && (r == Variable <==> 25.0 <= Variance(valid))
  {
    if |valid| > 1 {
      var d := Dispersion(valid, root);
      SquareOrder(d, HighBelow);
      SquareOrder(d, ModerateBelow);
      assert Square(HighBelow) == 9.0 && Square(ModerateBelow) == 25.0;
    }
  }

  /** Equal gaps all pass the filters, average to themselves and have no
      dispersion. */
  lemma EqualGapsEstimate(gaps: seq<int>, cycle: int, root: real -> real)
    requires |gaps| >= 2 && IsSqrt(root) && AllEqual(gaps, cycle)
    ensures ValidGaps(gaps) == gaps
    ensures WeightedAverage(gaps, Weights(|gaps|)) == cycle as real
    ensures Dispersion(gaps, root) == 0.0
  {
    ValidGapsCases(gaps);
    var band := IqrFence(gaps);
    Uniform(gaps, cycle);
    assert forall x :: x in gaps ==> Within(band.0, band.1)(x);
    FilterKeepsAll(gaps, Within(band.0, band.1));
    WeightedAverageOfEqual(gaps, Weights(|gaps|), cycle);
    VarianceZeroIffAllEqual(gaps);
    assert gaps[0] in gaps;
    assert Variance(gaps) == 0.0;
    SquareZero(0.0);
    RootOfSquare(root, 0.0);
  }

  /** From equal gaps the estimate is one cycle after the last date, with
      no variation and High reliability. */
  lemma EqualGapsPrediction(gaps: seq<int>, cycle: int, last: int, root: real -> real)
    requires |gaps| >= 2 && IsSqrt(root) && AllEqual(gaps, cycle)
    ensures Estimate(gaps, last, root) == Prediction(last + cycle, last + cycle, cycle as real, 0.0, last, High)
  {
    EqualGapsEstimate(gaps, cycle, root);
    RoundOfInteger(cycle);
  }

  /** A prediction of a cycle of exactly `cycle` days with no variation: the
      window collapses onto the last date plus `cycle`, and the reliability
      is high. */
  predicate Steady(o: Outcome, cycle: int) {
    o.Predicted? &&
    var p := o.prediction;
    p == Prediction(p.lastDate + cycle, p.lastDate + cycle, cycle as real, 0.0, p.lastDate, High)
  }

  /** Sorted dates at least three long that are evenly spaced `cycle` days
      apart predict the next date exactly `cycle` days after the last one. */
  lemma EvenlySpacedDates(dates: seq<int>, cycle: int, root: real -> real)
    requires |dates| >= 3 && IsSqrt(root)
    requires AllEqual(Gaps(dates), cycle)
    ensures Steady(Forecast(dates, root), cycle)
    ensures Forecast(dates, root).prediction.lastDate == dates[|dates| - 1]
  {
    var gaps, last := Gaps(dates), dates[|dates| - 1];
    EqualGapsValid(dates, gaps, cycle, root);
    ForecastFromValid(dates, gaps, root);
    EqualGapsPrediction(gaps, cycle, last, root);
  }

  /** Those dates have two or more gaps, all of them valid. */
  lemma EqualGapsValid(dates: seq<int>, gaps: seq<int>, cycle: int, root: real -> real)
    requires |dates| >= 3 && IsSqrt(root) && gaps == Gaps(dates) && AllEqual(gaps, cycle)
    ensures |gaps| >= 2 && ValidGaps(gaps) == gaps
  {
    EqualGapsEstimate(gaps, cycle, root);
  }

  /** The same for a history logged in any order, anchored at its latest date. */
  lemma EvenlySpacedHistory(history: seq<int>, cycle: int, root: real -> real)
    requires |history| >= 3 && IsSqrt(root)
    requires AllEqual(Gaps(Sort(history)), cycle)
    ensures Steady(Predict(history, root), cycle)
    ensures Predict(history, root).prediction.lastDate == Max(history)
  {
    EvenlySpacedDates(Sort(history), cycle, root);
  }

  /** A prediction from a single gap of `c` days: average c, the fixed
      variation of 2 days, the window from c - 2 to c + 2 days after the
      last date, and high reliability. */
  predicate SingleGapOutcome(o: Outcome, c: int) {
    o.Predicted? &&
    var p := o.prediction;
    p == Prediction(p.lastDate + c - 2, p.lastDate + c + 2, c as real, SingleGapDispersion, p.lastDate, High)
  }

  /** A single gap strictly between 15 and 50 days is valid. */
  lemma SingleGapValid(c: int)
    requires FallbackLow < c < FallbackHigh
    ensures ValidGaps([c]) == [c]
  {
    ValidGapsCases([c]);
    FilterKeepsAll([c], StrictlyBetween(FallbackLow, FallbackHigh));
  }

  /** From a single gap c: average c, the fixed variation of 2 days, and
      the window c - 2 to c + 2 days after the last date, rated High. */
  lemma SingleGapEstimate(c: int, last: int, root: real -> real)
    ensures Estimate([c], last, root) ==
      Prediction(last + c - 2, last + c + 2, c as real, SingleGapDispersion, last, High)
  {
    var gaps := [c];
    assert WeightedAverage(gaps, Weights(1)) == c as real by {
      FewGapsPlainMean(gaps);
      assert Total(gaps) == c;
    }
    assert Window(last, c as real, SingleGapDispersion) == (last + c - 2, last + c + 2) by {
      RoundOfInteger(c - 2);
      RoundOfInteger(c + 2);
      assert c as real - SingleGapDispersion == (c - 2) as real;
      assert c as real + SingleGapDispersion == (c + 2) as real;
    }
  }

  /** Two sorted dates c days apart, with 15 < c < 50, are forecast from
      their single gap. */
  lemma TwoDatesForecast(dates: seq<int>, c: int, root: real -> real)
    requires |dates| == 2 && dates[1] - dates[0] == c
    requires FallbackLow < c < FallbackHigh
    ensures Forecast(dates, root) ==
      Predicted(Prediction(dates[1] + c - 2, dates[1] + c + 2, c as real, SingleGapDispersion, dates[1], High))
    ensures SingleGapOutcome(Forecast(dates, root), c)
  {
    var gaps := Gaps(dates);
    assert |gaps| == 1 && gaps[0] == c;
    assert gaps == [c];
    SingleGapValid(c);
    ForecastFromValid(dates, [c], root);
    SingleGapEstimate(c, dates[1], root);
  }

  /** With at least two dates and valid gaps `valid`, the forecast is the
      estimate from those gaps at the last date. */
  lemma ForecastFromValid(dates: seq<int>, valid: seq<int>, root: real -> real)
    requires |dates| >= MinDates && ValidGaps(Gaps(dates)) == valid && valid != []
    ensures Forecast(dates, root) == Predicted(Estimate(valid, dates[|dates| - 1], root))
  {
  }

  /** An ascending pair holding d and d + c, with c > 0, is [d, d + c]. */
  lemma SortedPair(t: seq<int>, d: int, c: int)
    requires Sorted(t) && |t| == 2 && multiset(t) == multiset{d, d + c} && c > 0
    ensures t[0] == d && t[1] == d + c
  {
    assert t == [t[0], t[1]];
    assert multiset(t) == multiset{t[0], t[1]};
    assert t[0] in multiset{d, d + c} && t[1] in multiset{d, d + c};
  }

  /** Two dates c days apart, with 15 < c < 50, logged in either order:
      the window runs from c - 2 to c + 2 days after the later date, rated
      High. So two dates never give a zero-width window. */
  lemma TwoDatesWindow(history: seq<int>, d: int, c: int, root: real -> real)
    requires multiset(history) == multiset{d, d + c}
    requires FallbackLow < c < FallbackHigh
    ensures SingleGapOutcome(Predict(history, root), c)
    ensures Predict(history, root).prediction.lastDate == d + c
  {
    assert |history| == |multiset(history)| == 2;
    var dates := Sort(history);
    SortedPair(dates, d, c);
    TwoDatesForecast(dates, c, root);
  }

  /** Both quartiles of equal values are that value. */
  lemma Uniform(gaps: seq<int>, cycle: int)
    requires |gaps| > 0 && AllEqual(gaps, cycle)
    ensures Quantile(gaps, LowerQuartile) == cycle as real
    ensures Quantile(gaps, UpperQuartile) == cycle as real
  {
    assert Min(gaps) in gaps && Max(gaps) in gaps;
  }
}
