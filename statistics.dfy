/** The numeric library routines the estimator relies on, over exact reals:
    the weighted mean of numpy's `average`, the population variance under
    numpy's `std`, and the linear-interpolation quantile that pandas'
    `Series.quantile` uses by default (Hyndman and Fan's type 7). */
module Statistics {
  import opened Sorting

  // Arithmetic helpers. Products of reals are nonlinear, so the few facts
  // about them that the statistics need are stated once here.

  lemma MulLeft(a: real, b: real, c: real)
    requires a <= b && c >= 0.0
    ensures c * a <= c * b
  {
  }

  lemma MulLeftStrict(a: real, b: real, c: real)
    requires a < b && c > 0.0
    ensures c * a < c * b
  {
  }

  /** The identity, used only by `Square`. */
  function Same(x: real): real { x }

  /** x squared. The second factor is written `Same(x)` so that the solver
      treats the square as an ordinary product of two factors. */
  function Square(x: real): real { x * Same(x) }

  lemma SquareStrictlyMonotone(a: real, b: real)
    requires 0.0 <= a < b
    ensures Square(a) < Square(b)
  {
    MulLeft(a, b, a);
    MulLeftStrict(a, b, b);
  }

  lemma SquareOfNegation(d: real)
    ensures Square(-d) == Square(d)
  {
  }

  /** A square is never negative, and it is zero only for zero. */
  lemma SquareZero(d: real)
    ensures Square(d) >= 0.0
    ensures Square(d) == 0.0 <==> d == 0.0
  {
    if d > 0.0 {
      SquareStrictlyMonotone(0.0, d);
    } else if d < 0.0 {
      SquareStrictlyMonotone(0.0, -d);
      SquareOfNegation(d);
    }
  }

  /** Between non-negative numbers, comparing squares is comparing the numbers. */
  lemma SquareOrder(a: real, b: real)
    requires a >= 0.0 && b >= 0.0
    ensures a < b <==> Square(a) < Square(b)
    ensures a == b <==> Square(a) == Square(b)
  {
    if a < b {
      SquareStrictlyMonotone(a, b);
    } else if b < a {
      SquareStrictlyMonotone(b, a);
    }
  }

  // Sums, means, variance and quantiles.

  function Min(s: seq<int>): (m: int)
    requires |s| > 0
    ensures m in s && forall x :: x in s ==> m <= x
  {
    if |s| == 1 then s[0]
    else
      assert s == [s[0]] + s[1..];
      var rest := Min(s[1..]);
      if s[0] <= rest then s[0] else rest
  }

  function Max(s: seq<int>): (m: int)
    requires |s| > 0
    ensures m in s && forall x :: x in s ==> x <= m
  {
    if |s| == 1 then s[0]
    else
      assert s == [s[0]] + s[1..];
      var rest := Max(s[1..]);
      if s[0] >= rest then s[0] else rest
  }

  /** Every element of `s` equals `g`. */
  predicate AllEqual(s: seq<int>, g: int) {
    forall x :: x in s ==> x == g
  }

  predicate Positive(w: seq<real>) {
    forall i :: 0 <= i < |w| ==> w[i] > 0.0
  }

  function Total(s: seq<int>): int {
    if s == [] then 0 else s[0] + Total(s[1..])
  }

  function TotalWeight(w: seq<real>): real {
    if w == [] then 0.0 else w[0] + TotalWeight(w[1..])
  }

  /** The sum of w[i] * g[i]. */
  function WeightedTotal(g: seq<int>, w: seq<real>): real
    requires |g| == |w|
  {
    if g == [] then 0.0 else w[0] * g[0] as real + WeightedTotal(g[1..], w[1..])
  }

  /** The sum of (g[i] - m)^2. */
  function SquaredDeviation(g: seq<int>, m: real): real {
    if g == [] then 0.0 else Square(g[0] as real - m) + SquaredDeviation(g[1..], m)
  }

  lemma {:induction false} TotalWeightPositive(w: seq<real>)
    requires Positive(w) && |w| > 0
    ensures TotalWeight(w) > 0.0
  {
    if |w| > 1 {
      TotalWeightPositive(w[1..]);
    }
  }

  /** If every value is at least `c`, the weighted total is at least `c`
      times the total weight. */
  lemma {:induction false} WeightedTotalAtLeast(g: seq<int>, w: seq<real>, c: real)
    requires |g| == |w| && Positive(w)
    requires forall x :: x in g ==> c <= x as real
    ensures c * TotalWeight(w) <= WeightedTotal(g, w)
  {
    if g != [] {
      assert g[0] in g;
      assert forall x :: x in g[1..] ==> x in g;
      WeightedTotalAtLeast(g[1..], w[1..], c);
      assert WeightedTotal(g, w) == w[0] * g[0] as real + WeightedTotal(g[1..], w[1..]);
      assert TotalWeight(w) == w[0] + TotalWeight(w[1..]);
      assert w[0] > 0.0;
      ScaledSumAtLeast(c, g[0] as real, w[0], WeightedTotal(g[1..], w[1..]), TotalWeight(w[1..]));
    }
  }

  /** One step of the lower bound: w0 x + rest >= c (w0 + tw) when x >= c
      and rest >= c tw. */
  lemma ScaledSumAtLeast(c: real, x: real, w0: real, rest: real, tw: real)
    requires w0 > 0.0 && c <= x && c * tw <= rest
    ensures c * (w0 + tw) <= w0 * x + rest
  {
    MulLeft(c, x, w0);
    assert c * (w0 + tw) == w0 * c + c * tw;
  }

  /** If every value is at most `c`, the weighted total is at most `c`
      times the total weight. */
  lemma {:induction false} WeightedTotalAtMost(g: seq<int>, w: seq<real>, c: real)
    requires |g| == |w| && Positive(w)
    requires forall x :: x in g ==> x as real <= c
    ensures WeightedTotal(g, w) <= c * TotalWeight(w)
  {
    if g != [] {
      assert g[0] in g;
      assert forall x :: x in g[1..] ==> x in g;
      WeightedTotalAtMost(g[1..], w[1..], c);
      assert WeightedTotal(g, w) == w[0] * g[0] as real + WeightedTotal(g[1..], w[1..]);
      assert TotalWeight(w) == w[0] + TotalWeight(w[1..]);
      assert w[0] > 0.0;
      ScaledSumAtMost(c, g[0] as real, w[0], WeightedTotal(g[1..], w[1..]), TotalWeight(w[1..]));
    }
  }

  /** One step of the upper bound: w0 x + rest <= c (w0 + tw) when x <= c
      and rest <= c tw. */
  lemma ScaledSumAtMost(c: real, x: real, w0: real, rest: real, tw: real)
    requires w0 > 0.0 && x <= c && rest <= c * tw
    ensures w0 * x + rest <= c * (w0 + tw)
  {
    MulLeft(x, c, w0);
    assert c * (w0 + tw) == w0 * c + c * tw;
  }

  lemma {:induction false} TotalConcat(a: seq<int>, b: seq<int>)
    ensures Total(a + b) == Total(a) + Total(b)
    ensures Total(a + b) as real == Total(a) as real + Total(b) as real
  {
    if a == [] {
      assert a + b == b;
    } else {
      assert (a + b)[1..] == a[1..] + b;
      TotalConcat(a[1..], b);
    }
  }

  /** With one common weight `c`, the weighted total is `c` times the plain
      total and the total weight is `c` times the count. */
  lemma {:induction false} WeightedTotalOfConstant(g: seq<int>, w: seq<real>, c: real)
    requires |g| == |w|
    requires forall i :: 0 <= i < |w| ==> w[i] == c
    ensures WeightedTotal(g, w) == c * Total(g) as real
    ensures TotalWeight(w) == c * |w| as real
  {
    if g != [] {
      WeightedTotalOfConstant(g[1..], w[1..], c);
    }
  }

  lemma DivideBounds(lo: real, x: real, hi: real, d: real)
    requires d > 0.0 && lo * d <= x <= hi * d
    ensures lo <= x / d <= hi
  {
    var q := x / d;
    assert q * d == x;
    if q < lo {
      MulLeftStrict(q, lo, d);
    }
    if q > hi {
      MulLeftStrict(hi, q, d);
    }
  }

  /** numpy's `average(g, weights=w)` with positive weights: the sum of
      w[i] * g[i] divided by the sum of the weights. */
  function WeightedAverage(g: seq<int>, w: seq<real>): (a: real)
    requires |g| == |w| > 0 && Positive(w)
    ensures a * TotalWeight(w) == WeightedTotal(g, w)
  {
    TotalWeightPositive(w);
    WeightedTotal(g, w) / TotalWeight(w)
  }

  /** A weighted average with positive weights never leaves the range of
      the data. */
  lemma WeightedAverageWithinRange(g: seq<int>, w: seq<real>)
    requires |g| == |w| > 0 && Positive(w)
    ensures Min(g) as real <= WeightedAverage(g, w) <= Max(g) as real
  {
    WeightedTotalAtLeast(g, w, Min(g) as real);
    WeightedTotalAtMost(g, w, Max(g) as real);
    TotalWeightPositive(w);
    DivideBounds(Min(g) as real, WeightedTotal(g, w), Max(g) as real, TotalWeight(w));
  }

  function Mean(g: seq<int>): real
    requires |g| > 0
  {
    Total(g) as real / |g| as real
  }

  /** numpy's `std` is the square root of this population variance
      (divisor n, not n - 1). */
  function Variance(g: seq<int>): (v: real)
    requires |g| > 0
    ensures v >= 0.0
  {
    SquaredDeviationZero(g, Mean(g));
    SquaredDeviation(g, Mean(g)) / |g| as real
  }

  lemma {:induction false} TotalOfEqual(g: seq<int>, c: int)
    requires AllEqual(g, c)
    ensures Total(g) == |g| * c
  {
    if g != [] {
      assert g[0] in g;
      assert forall x :: x in g[1..] ==> x in g;
      TotalOfEqual(g[1..], c);
    }
  }

  /** The weighted average of values that all equal `c` is `c`, whatever
      the weights. */
  lemma WeightedAverageOfEqual(g: seq<int>, w: seq<real>, c: int)
    requires |g| == |w| > 0 && Positive(w) && AllEqual(g, c)
    ensures WeightedAverage(g, w) == c as real
  {
    WeightedAverageWithinRange(g, w);
    assert Min(g) in g && Max(g) in g;
  }

  lemma MeanOfEqual(g: seq<int>, c: int)
    requires |g| > 0 && AllEqual(g, c)
    ensures Mean(g) == c as real
  {
    TotalOfEqual(g, c);
    assert Total(g) as real == |g| as real * c as real;
  }

  /** A sum of squares is never negative, and is zero exactly when every
      term is. */
  lemma {:induction false} SquaredDeviationZero(g: seq<int>, m: real)
    ensures SquaredDeviation(g, m) >= 0.0
    ensures SquaredDeviation(g, m) == 0.0 <==> forall x :: x in g ==> x as real == m
  {
    if g != [] {
      var head := g[0];
      SquaredDeviationZero(g[1..], m);
      SquareZero(head as real - m);
      assert g == [head] + g[1..];
      if forall x :: x in g ==> x as real == m {
        assert head in g;
        assert forall x :: x in g[1..] ==> x in g;
      }
    }
  }

  /** The population variance is zero exactly when all values are equal. */
  lemma VarianceZeroIffAllEqual(g: seq<int>)
    requires |g| > 0
    ensures Variance(g) == 0.0 <==> AllEqual(g, g[0])
  {
    var n := |g| as real;
    SquaredDeviationZero(g, Mean(g));
    assert SquaredDeviation(g, Mean(g)) == Variance(g) * n;
    if AllEqual(g, g[0]) {
      MeanOfEqual(g, g[0]);
    }
    if Variance(g) == 0.0 {
      assert g[0] in g;
    }
  }

  lemma PositionBounds(n: nat, p: real)
    requires n > 0 && 0.0 <= p <= 1.0
    ensures 0.0 <= (n - 1) as real * p <= (n - 1) as real
  {
    MulLeft(p, 1.0, (n - 1) as real);
    MulLeft(0.0, p, (n - 1) as real);
  }

  /** Where the p-quantile of n ascending values sits: position (n - 1) * p,
      counted from 0, so between the first and the last index. */
  function Position(n: nat, p: real): (h: real)
    requires n > 0 && 0.0 <= p <= 1.0
    ensures 0.0 <= h <= (n - 1) as real
  {
    PositionBounds(n, p);
    (n - 1) as real * p
  }

  /** A larger probability gives a position no further left. */
  lemma PositionMonotone(n: nat, p: real, p': real)
    requires n > 0 && 0.0 <= p <= p' <= 1.0
    ensures Position(n, p) <= Position(n, p')
  {
    MulLeft(p, p', (n - 1) as real);
  }

  /** The integer part of the quantile position: the index of the lower of
      the two order statistics that are interpolated. */
  function Rank(n: nat, p: real): (k: nat)
    requires n > 0 && 0.0 <= p <= 1.0
    ensures k < n
    ensures k as real <= Position(n, p) < k as real + 1.0
  {
    Position(n, p).Floor
  }

  /** The point a fraction `f` of the way from `a` to `b`. */
  function Interpolate(a: int, b: int, f: real): (r: real)
    requires a <= b && 0.0 <= f <= 1.0
    ensures a as real <= r <= b as real
    ensures f == 0.0 ==> r == a as real
  {
    var step := b as real - a as real;
    ScaleWithinUnit(step, f);
    a as real + step * f
  }

  /** Scaling by a fraction in [0, 1] stays between 0 and the full amount. */
  lemma ScaleWithinUnit(x: real, f: real)
    requires x >= 0.0 && 0.0 <= f <= 1.0
    ensures 0.0 <= x * f <= x
  {
    MulLeft(0.0, f, x);
    MulLeft(f, 1.0, x);
  }

  lemma InterpolateMonotone(a: int, b: int, f: real, f': real)
    requires a <= b && 0.0 <= f <= f' <= 1.0
    ensures Interpolate(a, b, f) <= Interpolate(a, b, f')
  {
    var step := b as real - a as real;
    ScaledGapNonNegative(step, f, f');
    assert Interpolate(a, b, f') - Interpolate(a, b, f) == step * f' - step * f;
  }

  /** A non-negative amount scaled by the larger of two fractions is no
      smaller. */
  lemma ScaledGapNonNegative(x: real, f: real, f': real)
    requires x >= 0.0 && f <= f'
    ensures x * f' - x * f >= 0.0
  {
    MulLeft(f, f', x);
  }

  /** The value at position h of an ascending sequence `t`: the linear
      interpolation between t[floor(h)] and t[floor(h) + 1], or the last
      value when h is the last index. It lies between those two. */
  function ValueAt(t: seq<int>, h: real): (q: real)
    requires |t| > 0 && Sorted(t) && 0.0 <= h <= (|t| - 1) as real
    ensures var k := h.Floor;
            0 <= k < |t| && t[k] as real <= q <= t[if k + 1 < |t| then k + 1 else k] as real
  {
    var k := h.Floor;
    if k + 1 < |t| then Interpolate(t[k], t[k + 1], h - k as real)
    else t[k] as real
  }

  /** Moving right along an ascending sequence never gives a smaller value. */
  lemma ValueAtMonotone(t: seq<int>, h: real, h': real)
    requires |t| > 0 && Sorted(t) && 0.0 <= h <= h' <= (|t| - 1) as real
    ensures ValueAt(t, h) <= ValueAt(t, h')
  {
    var n, k, k' := |t|, h.Floor, h'.Floor;
    assert k <= k';
    if k == k' {
      if k + 1 < n {
        InterpolateMonotone(t[k], t[k + 1], h - k as real, h' - k as real);
      }
    } else {
      assert ValueAt(t, h) <= t[k + 1] as real;
      assert t[k + 1] <= t[k'];
    }
  }

  /** The p-quantile of an ascending sequence, by linear interpolation
      between order statistics (type 7). */
  function OrderQuantile(t: seq<int>, p: real): (q: real)
    requires |t| > 0 && Sorted(t) && 0.0 <= p <= 1.0
    ensures var k := Rank(|t|, p);
            t[k] as real <= q <= t[if k + 1 < |t| then k + 1 else k] as real
  {
    ValueAt(t, Position(|t|, p))
  }

  /** The type-7 quantile of pandas' default: sort, then interpolate. It
      lies between the order statistics at floor((n - 1) p) and the next
      one, and so between the smallest and the largest value. */
  function Quantile(s: seq<int>, p: real): (q: real)
    requires |s| > 0 && 0.0 <= p <= 1.0
    ensures Min(s) as real <= q <= Max(s) as real
  {
    var t := Sort(s);
    OrderQuantileWithinEnds(t, p);
    SortEnds(s);
    var lo, hi := Min(s), Max(s);
    assert lo <= t[0] && t[|t| - 1] <= hi;
    OrderQuantile(t, p)
  }

  /** When (n - 1) * p is a whole number k, the quantile is the k-th order
      statistic itself. */
  lemma OrderQuantileAtWholePosition(t: seq<int>, p: real)
    requires |t| > 0 && Sorted(t) && 0.0 <= p <= 1.0
    requires Position(|t|, p) == Rank(|t|, p) as real
    ensures OrderQuantile(t, p) == t[Rank(|t|, p)] as real
  {
  }

  lemma OrderQuantileWithinEnds(t: seq<int>, p: real)
    requires |t| > 0 && Sorted(t) && 0.0 <= p <= 1.0
    ensures t[0] as real <= OrderQuantile(t, p) <= t[|t| - 1] as real
  {
    var n, k := |t|, Rank(|t|, p);
    var k' := if k + 1 < n then k + 1 else k;
    assert t[0] <= t[k] && t[k'] <= t[n - 1];
  }

  /** A larger probability never gives a smaller quantile. */
  lemma OrderQuantileMonotone(t: seq<int>, p: real, p': real)
    requires |t| > 0 && Sorted(t) && 0.0 <= p <= p' <= 1.0
    ensures OrderQuantile(t, p) <= OrderQuantile(t, p')
  {
    var n := |t|;
    PositionMonotone(n, p, p');
    ValueAtMonotone(t, Position(n, p), Position(n, p'));
  }

  /** The positions of the two quartiles for n values:
      floor((n - 1) / 4) and floor(3 (n - 1) / 4). */
  lemma QuartileRanks(n: nat)
    requires n > 0
    ensures Rank(n, 0.25) == (n - 1) / 4
    ensures Rank(n, 0.75) == 3 * (n - 1) / 4
  {
    var k1, k3 := (n - 1) / 4, 3 * (n - 1) / 4;
    assert (n - 1) as real * 0.25 == (n - 1) as real / 4.0;
    assert k1 as real <= (n - 1) as real * 0.25 < k1 as real + 1.0;
    assert k3 as real <= (n - 1) as real * 0.75 < k3 as real + 1.0;
  }
}
