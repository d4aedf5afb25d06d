/** Worked examples of the estimator on concrete histories, with dates as
    day numbers counted from 1 January 2024 (so 29 January is day 28 and
    27 February is day 57). */
module WorkedExamples {
  import opened Sorting
  import opened Filtering
  import opened Statistics
  import opened Rounding
  import opened CycleEstimator
  import opened EstimatorTheorems

  /** Gaps of 28 and 29 days have quartiles 28.25 and 28.75, so the fence
      is [27.5, 29.5]. */
  lemma TwoCloseGapsFence()
    ensures IqrFence([28, 29]) == (27.5, 29.5)
  {
    var gaps := [28, 29];
    SortOfSorted(gaps);
    assert IqrFence(gaps) == OrderFence(gaps);
    TwoGapQuartiles(gaps);
  }

  /** Both gaps lie inside that fence, so both are valid. */
  lemma TwoCloseGapsAreValid()
    ensures ValidGaps([28, 29]) == [28, 29]
  {
    var gaps := [28, 29];
    TwoCloseGapsFence();
    var band := IqrFence(gaps);
    FilterKeepsAll(gaps, Within(band.0, band.1));
    ValidGapsCases(gaps);
  }

  /** From gaps 28 and 29 and last date day 57: average 28.5, population
      deviation 0.5, window days 85 to 86 (26 to 27 March), High. */
  lemma TwoCloseGapsEstimate(root: real -> real)
    requires IsSqrt(root)
    ensures Estimate([28, 29], 57, root) == Prediction(85, 86, 28.5, 0.5, 57, High)
  {
    var gaps := [28, 29];
    assert WeightedAverage(gaps, Weights(2)) == 28.5 by {
      FewGapsPlainMean(gaps);
    }
    assert Dispersion(gaps, root) == 0.5 by {
      assert Mean(gaps) == 28.5;
      assert SquaredDeviation(gaps, 28.5) == 0.5;
      assert Variance(gaps) == 0.25;
      assert Square(0.5) == 0.25;
      RootOfSquare(root, 0.5);
    }
    assert Window(57, 28.5, 0.5) == (85, 86) by {
      RoundOfInteger(28);
      RoundOfInteger(29);
    }
  }

  /** The history 1 January, 29 January, 27 February, already in order. */
  lemma ThreeDatesForecast(root: real -> real)
    requires IsSqrt(root)
    ensures Forecast([0, 28, 57], root) == Predicted(Prediction(85, 86, 28.5, 0.5, 57, High))
  {
    var dates := [0, 28, 57];
    var gaps := Gaps(dates);
    assert gaps == [28, 29];
    assert ValidGaps(gaps) == [28, 29] by {
      TwoCloseGapsAreValid();
    }
    assert Estimate([28, 29], 57, root) == Prediction(85, 86, 28.5, 0.5, 57, High) by {
      TwoCloseGapsEstimate(root);
    }
  }

  /** The same three dates logged in any order give the same prediction. */
  lemma ThreeDatesAnyOrder(history: seq<int>, root: real -> real)
    requires multiset(history) == multiset{0, 28, 57} && IsSqrt(root)
    ensures Predict(history, root) == Predicted(Prediction(85, 86, 28.5, 0.5, 57, High))
  {
    var dates := [0, 28, 57];
    assert Sorted(dates);
    PredictOfSorted(dates, root);
    ThreeDatesForecast(root);
    assert multiset(history) == multiset(dates);
    PredictIgnoresOrder(history, dates, root);
  }

  /** Five gaps with one far outlier: the quartiles are 29 and 31, so the
      fence is [26, 34]. */
  lemma OutlierFence()
    ensures OrderFence([28, 29, 30, 31, 90]) == (26.0, 34.0)
  {
    var t := [28, 29, 30, 31, 90];
    assert Rank(5, LowerQuartile) == 1 && Rank(5, UpperQuartile) == 3;
    OrderQuantileAtWholePosition(t, LowerQuartile);
    OrderQuantileAtWholePosition(t, UpperQuartile);
  }

  /** Within [26, 34] the 90-day gap is dropped and the others are kept in
      order. */
  lemma OutlierOutsideFence()
    ensures Filter([28, 29, 30, 31, 90], Within(26.0, 34.0)) == [28, 29, 30, 31]
  {
    var kept, dropped := [28, 29, 30, 31], [90];
    var keep := Within(26.0, 34.0);
    assert [28, 29, 30, 31, 90] == kept + dropped;
    FilterConcat(kept, dropped, keep);
    FilterKeepsAll(kept, keep);
    assert Filter(dropped, keep) == [];
  }

  /** Those gaps are listed in ascending order, so sorting keeps them. */
  lemma OutlierGapsInOrder()
    ensures Sort([28, 29, 30, 31, 90]) == [28, 29, 30, 31, 90]
  {
    SortOfSorted([28, 29, 30, 31, 90]);
  }

  /** So the outlier filter drops the 90-day gap. */
  lemma OutlierDropped()
    ensures IqrFilter([28, 29, 30, 31, 90]) == [28, 29, 30, 31]
  {
    OutlierGapsInOrder();
    OutlierFence();
    OutlierOutsideFence();
  }

  /** Two dates 60 days apart: the single gap fails the fallback bounds and
      no window is built. */
  lemma TwoDistantDates(root: real -> real)
    ensures Predict([0, 60], root) == NoPrediction(NoReliableGaps)
  {
    PredictsExactly([0, 60], root);
    assert Max([0, 60]) - Min([0, 60]) == 60;
  }

  /** A sheet whose single row is not a readable date asks for more dates
      rather than reporting an empty sheet. */
  lemma UnreadableRow(root: real -> real)
    ensures Track([Unparsed], root) == NoPrediction(TooFewDates(0))
  {
    assert ReadableDates([Unparsed]) == [];
  }
}
