// The statistical core (engine/analytics.py): z-score against a history,
// percentile rank, the Fisher real return, carry and purchasing-power
// parity. Floats are exact reals; the square root in the z-score is kept
// symbolic (see ZScore).
module Analytics {
  import opened Wrappers

  /** `[x for x in history if x is not None]`. */
  function Clean(history: seq<Option<real>>): (r: seq<real>)
    ensures |r| <= |history|
  {
    if history == [] then []
    else (if history[0].Some? then [history[0].value] else []) + Clean(history[1..])
  }

  /** Cleaning keeps exactly the present values. */
  lemma {:induction false} CleanMembers(history: seq<Option<real>>)
    ensures forall x :: x in Clean(history) <==> Some(x) in history
  {
    if history != [] {
      CleanMembers(history[1..]);
      assert history == [history[0]] + history[1..];
    }
  }

  function Sum(xs: seq<real>): real
  {
    if xs == [] then 0.0 else xs[0] + Sum(xs[1..])
  }

  /** `statistics.mean`. */
  function Mean(xs: seq<real>): real
    requires xs != []
  {
    Sum(xs) / |xs| as real
  }

  /** The sum of squared deviations from `m`. */
  function SumSqDev(xs: seq<real>, m: real): (r: real)
    ensures r >= 0.0
  {
    if xs == [] then 0.0
    else
      SquareNonNegative(xs[0] - m);
      (xs[0] - m) * (xs[0] - m) + SumSqDev(xs[1..], m)
  }

  lemma SquareNonNegative(d: real)
    ensures d * d >= 0.0
  {
    if d < 0.0 {
      assert d * d == (-d) * (-d);
    }
  }

  /** `statistics.variance`: the sample variance, divisor N-1. */
  function SampleVariance(xs: seq<real>): (r: real)
    requires |xs| >= 2
    ensures r >= 0.0
  {
    SumSqDev(xs, Mean(xs)) / (|xs| - 1) as real
  }

  /**
   * A z-score. `ZRatio(diff, variance)` stands for diff / sqrt(variance),
   * the value `(current - mean) / stdev`; `ZZero` is the 0.0 fallback.
   */
  datatype ZScore = ZZero | ZRatio(diff: real, variance: real)

  predicate WellFormed(z: ZScore)
  {
    z.ZRatio? ==> z.variance > 0.0
  }

  /** |z| >= k, decided without a square root: diff^2 >= k^2 * variance. */
  predicate AbsAtLeast(z: ZScore, k: real)
    requires k >= 0.0
  {
    match z
    case ZZero => k == 0.0
    case ZRatio(d, v) => d * d >= k * k * v
  }

  /** z >= 0. */
  predicate NonNegative(z: ZScore)
  {
    z.ZZero? || z.diff >= 0.0
  }

  /** z_score(current, history). */
  function ZScoreOf(current: real, history: seq<Option<real>>): (z: ZScore)
    ensures WellFormed(z)
    ensures |Clean(history)| < 2 ==> z == ZZero
    ensures |Clean(history)| >= 2 ==> (z.ZRatio? <==> SampleVariance(Clean(history)) > 0.0)
    ensures z.ZRatio? ==> z.diff == current - Mean(Clean(history))
    ensures z.ZRatio? ==> z.variance == SampleVariance(Clean(history))
  {
    var clean := Clean(history);
    if |clean| < 2 then ZZero
    else
      var v := SampleVariance(clean);
      if v == 0.0 then ZZero else ZRatio(current - Mean(clean), v)
  }

  lemma {:induction false} SumConstant(xs: seq<real>, c: real)
    requires forall i :: 0 <= i < |xs| ==> xs[i] == c
    ensures Sum(xs) == |xs| as real * c
  {
    if xs != [] {
      SumConstant(xs[1..], c);
    }
  }

  lemma {:induction false} SumSqDevAtMean(xs: seq<real>, m: real)
    requires forall i :: 0 <= i < |xs| ==> xs[i] == m
    ensures SumSqDev(xs, m) == 0.0
  {
    if xs != [] {
      SumSqDevAtMean(xs[1..], m);
    }
  }

  /**
   * The zero-stdev guard covers constant histories: when every usable point
   * is the same, the sample variance is zero and the z-score is the 0.0
   * fallback whatever the current value.
   */
  lemma ConstantHistoryScoresZero(current: real, history: seq<Option<real>>)
    requires |Clean(history)| >= 2
    requires forall i :: 0 <= i < |Clean(history)| ==> Clean(history)[i] == Clean(history)[0]
    ensures SampleVariance(Clean(history)) == 0.0
    ensures ZScoreOf(current, history) == ZZero
  {
    var xs := Clean(history);
    SumConstant(xs, xs[0]);
    assert Mean(xs) == xs[0];
    SumSqDevAtMean(xs, xs[0]);
  }

  lemma {:induction false} SumShift(xs: seq<real>, d: real, ys: seq<real>)
    requires |ys| == |xs|
    requires forall i :: 0 <= i < |xs| ==> ys[i] == xs[i] + d
    ensures Sum(ys) == Sum(xs) + |xs| as real * d
  {
    if xs != [] {
      SumShift(xs[1..], d, ys[1..]);
    }
  }

  lemma {:induction false} SumSqDevShift(xs: seq<real>, m: real, d: real, ys: seq<real>)
    requires |ys| == |xs|
    requires forall i :: 0 <= i < |xs| ==> ys[i] == xs[i] + d
    ensures SumSqDev(ys, m + d) == SumSqDev(xs, m)
  {
    if xs != [] {
      SumSqDevShift(xs[1..], m, d, ys[1..]);
    }
  }

  /** Shifting every point by d shifts the mean by d and keeps the variance. */
  lemma MomentsShift(xs: seq<real>, d: real, ys: seq<real>)
    requires |xs| >= 2 && |ys| == |xs|
    requires forall i :: 0 <= i < |xs| ==> ys[i] == xs[i] + d
    ensures Mean(ys) == Mean(xs) + d
    ensures SampleVariance(ys) == SampleVariance(xs)
  {
    var n := |xs| as real;
    SumShift(xs, d, ys);
    assert Sum(ys) / n == Sum(xs) / n + d by {
      assert Sum(ys) == Sum(xs) + n * d;
    }
    SumSqDevShift(xs, Mean(xs), d, ys);
  }

  /** Shifting the current value and every point by the same amount leaves the z-score unchanged. */
  lemma ZScoreShiftInvariant(current: real, xs: seq<real>, d: real, ys: seq<real>)
    requires |xs| >= 2 && |ys| == |xs|
    requires forall i :: 0 <= i < |xs| ==> ys[i] == xs[i] + d
    ensures Mean(ys) == Mean(xs) + d
    ensures SampleVariance(ys) == SampleVariance(xs)
    ensures ZScoreOf(current + d, Present(ys)) == ZScoreOf(current, Present(xs))
  {
    MomentsShift(xs, d, ys);
    CleanPresent(xs);
    CleanPresent(ys);
    var zx := ZScoreOf(current, Present(xs));
    var zy := ZScoreOf(current + d, Present(ys));
    assert zy.ZRatio? <==> zx.ZRatio?;
    if zx.ZRatio? {
      assert zy.diff == (current + d) - Mean(ys);
      assert zy.diff == zx.diff;
    }
  }

  /** The sign of the z-score is the side of the mean the current value is on. */
  lemma ZScoreSign(current: real, history: seq<Option<real>>)
    requires |Clean(history)| >= 2
    requires ZScoreOf(current, history).ZRatio?
    ensures NonNegative(ZScoreOf(current, history)) <==> current >= Mean(Clean(history))
  {
  }

  /** The worked example: 14 against [8, 9, 10, 11, 12] is 4 / sqrt(2.5), about 2.53, so |z| >= 2 and |z| < 3. */
  lemma ZScoreExample()
    ensures ZScoreOf(14.0, [Some(8.0), Some(9.0), Some(10.0), Some(11.0), Some(12.0)]) == ZRatio(4.0, 2.5)
    ensures AbsAtLeast(ZRatio(4.0, 2.5), 2.0) && !AbsAtLeast(ZRatio(4.0, 2.5), 3.0)
  {
    var xs := [8.0, 9.0, 10.0, 11.0, 12.0];
    ExampleClean();
    ExampleMoments();
    assert SampleVariance(xs) == 2.5;
  }

  lemma ExampleClean()
    ensures Clean([Some(8.0), Some(9.0), Some(10.0), Some(11.0), Some(12.0)]) == [8.0, 9.0, 10.0, 11.0, 12.0]
  {
    var h := [Some(8.0), Some(9.0), Some(10.0), Some(11.0), Some(12.0)];
    assert Clean(h[4..]) == [12.0];
    assert Clean(h[3..]) == [11.0, 12.0];
    assert Clean(h[2..]) == [10.0, 11.0, 12.0];
    assert Clean(h[1..]) == [9.0, 10.0, 11.0, 12.0];
  }

  lemma ExampleMoments()
    ensures Mean([8.0, 9.0, 10.0, 11.0, 12.0]) == 10.0
    ensures SumSqDev([8.0, 9.0, 10.0, 11.0, 12.0], 10.0) == 10.0
  {
    var xs := [8.0, 9.0, 10.0, 11.0, 12.0];
    assert Sum(xs[4..]) == 12.0;
    assert Sum(xs[3..]) == 23.0;
    assert Sum(xs[2..]) == 33.0;
    assert Sum(xs[1..]) == 42.0;
    assert SumSqDev(xs[4..], 10.0) == 4.0;
    assert SumSqDev(xs[3..], 10.0) == 5.0;
    assert SumSqDev(xs[2..], 10.0) == 5.0;
    assert SumSqDev(xs[1..], 10.0) == 6.0;
  }

  /** Histories with fewer than two usable points, or constant ones, give 0.0. */
  lemma ZScoreFallbacks()
    ensures ZScoreOf(10.0, []) == ZZero
    ensures ZScoreOf(10.0, [Some(10.0)]) == ZZero
    ensures ZScoreOf(10.0, [Some(5.0), Some(5.0), Some(5.0)]) == ZZero
    ensures ZScoreOf(10.0, [None, Some(5.0), Some(5.0)]) == ZZero
  {
    var c3 := [Some(5.0), Some(5.0), Some(5.0)];
    assert Clean(c3) == [5.0, 5.0, 5.0] by {
      assert Clean(c3[2..]) == [5.0];
      assert Clean(c3[1..]) == [5.0, 5.0];
    }
    ConstantHistoryScoresZero(10.0, c3);
    var n3 := [None, Some(5.0), Some(5.0)];
    assert Clean(n3) == [5.0, 5.0] by {
      assert Clean(n3[2..]) == [5.0];
      assert Clean(n3[1..]) == [5.0, 5.0];
    }
    ConstantHistoryScoresZero(10.0, n3);
  }

  /** The number of points strictly below `current`. */
  function CountBelow(xs: seq<real>, current: real): (r: nat)
    ensures r <= |xs|
  {
    if xs == [] then 0 else (if xs[0] < current then 1 else 0) + CountBelow(xs[1..], current)
  }

  /** percentile_rank: the share of usable points strictly below `current`; 0.5 without data. */
  function PercentileRank(current: real, history: seq<Option<real>>): (r: real)
    ensures 0.0 <= r <= 1.0
    ensures Clean(history) == [] ==> r == 0.5
  {
    var clean := Clean(history);
    if clean == [] then 0.5
    else CountBelow(clean, current) as real / |clean| as real
  }

  lemma {:induction false} CountBelowMonotone(xs: seq<real>, a: real, b: real)
    requires a <= b
    ensures CountBelow(xs, a) <= CountBelow(xs, b)
  {
    if xs != [] {
      CountBelowMonotone(xs[1..], a, b);
    }
  }

  lemma {:induction false} CountBelowExtremes(xs: seq<real>, current: real)
    ensures (forall x :: x in xs ==> current <= x) ==> CountBelow(xs, current) == 0
    ensures (forall x :: x in xs ==> x < current) ==> CountBelow(xs, current) == |xs|
  {
    if xs != [] {
      CountBelowExtremes(xs[1..], current);
      assert xs[0] in xs;
      assert forall x :: x in xs[1..] ==> x in xs;
    }
  }

  lemma DivMonotone(a: real, b: real, n: real)
    requires n > 0.0 && a <= b
    ensures a / n <= b / n
  {
    var q := (b - a) / n;
    assert q * n == b - a;
    assert b / n == a / n + q;
  }

  /** A higher current value never ranks lower. */
  lemma PercentileMonotone(history: seq<Option<real>>, a: real, b: real)
    requires a <= b
    ensures PercentileRank(a, history) <= PercentileRank(b, history)
  {
    var clean := Clean(history);
    if clean != [] {
      CountBelowMonotone(clean, a, b);
      DivMonotone(CountBelow(clean, a) as real, CountBelow(clean, b) as real, |clean| as real);
    }
  }

  lemma DivSelf(n: real)
    requires n > 0.0
    ensures n / n == 1.0
  {
  }

  /** At or below every usable point ranks 0.0. */
  lemma PercentileLowest(history: seq<Option<real>>, current: real)
    requires Clean(history) != []
    requires forall x :: x in Clean(history) ==> current <= x
    ensures PercentileRank(current, history) == 0.0
  {
    CountBelowExtremes(Clean(history), current);
  }

  /** Above every usable point ranks 1.0. */
  lemma PercentileHighest(history: seq<Option<real>>, current: real)
    requires Clean(history) != []
    requires forall x :: x in Clean(history) ==> x < current
    ensures PercentileRank(current, history) == 1.0
  {
    var clean := Clean(history);
    CountBelowExtremes(clean, current);
    DivSelf(|clean| as real);
  }

  /** real_return: the Fisher rate r with (1 + r)(1 + i) = 1 + n; 0.0 at or below -100% inflation. */
  function RealReturn(nominal: real, inflation: real): (r: real)
    ensures inflation > -1.0 ==> (1.0 + r) * (1.0 + inflation) == 1.0 + nominal
    ensures inflation <= -1.0 ==> r == 0.0
  {
    if inflation <= -1.0 then 0.0 else (1.0 + nominal) / (1.0 + inflation) - 1.0
  }

  /** Real return is positive exactly when the nominal rate beats inflation. */
  lemma RealReturnPositive(nominal: real, inflation: real)
    requires inflation > -1.0
    ensures RealReturn(nominal, inflation) > 0.0 <==> nominal > inflation
  {
    var r := RealReturn(nominal, inflation);
    var g := 1.0 + inflation;
    assert (1.0 + r) * g == 1.0 + nominal;
    assert (1.0 + r) * g == g + r * g;
    if r > 0.0 {
      assert r * g > 0.0;
    } else {
      assert r * g <= 0.0;
    }
  }

  /** implied_carry_trade: yield differential minus spot depreciation; a zero spot raises. */
  function ImpliedCarry(longYield: real, shortYield: real, spot: real, expectedSpot: real): (r: Outcome<real>)
    ensures r.Raised? <==> spot == 0.0
    ensures r.Ok? ==> r.value + (expectedSpot - spot) / spot == longYield - shortYield
  {
    if spot == 0.0 then Raised
    else Ok((longYield - shortYield) - (expectedSpot - spot) / spot)
  }

  /** With an unchanged expected spot, the carry is the whole yield differential. */
  lemma CarryFlatSpot(longYield: real, shortYield: real, spot: real)
    requires spot != 0.0
    ensures ImpliedCarry(longYield, shortYield, spot, spot) == Ok(longYield - shortYield)
  {
  }

  /** fair_value_ppp: spot pushed by the inflation differential. */
  function FairValuePpp(spot: real, homeInflation: real, foreignInflation: real): (r: real)
    ensures homeInflation == foreignInflation ==> r == spot
    ensures r - spot == spot * (homeInflation - foreignInflation)
  {
    spot * (1.0 + (homeInflation - foreignInflation))
  }

  /** For a positive spot, higher home inflation means a higher fair value. */
  lemma PppMonotone(spot: real, h1: real, h2: real, foreign: real)
    requires spot > 0.0 && h1 <= h2
    ensures FairValuePpp(spot, h1, foreign) <= FairValuePpp(spot, h2, foreign)
  {
    assert spot * (h2 - h1) >= 0.0;
  }

  /** The reference cases: 35 ranks above three of five points, Fisher 50% over 40% is 1/14, carry and PPP. */
  lemma ReferenceCases()
    ensures PercentileRank(35.0, [Some(10.0), Some(20.0), Some(30.0), Some(40.0), Some(50.0)]) == 0.6
    ensures RealReturn(0.5, 0.4) == 1.0 / 14.0
    ensures ImpliedCarry(0.5, 0.05, 30.0, 40.0) == Ok(0.45 - 1.0 / 3.0)
    ensures FairValuePpp(30.0, 0.5, 0.05) == 43.5
  {
    var h := [Some(10.0), Some(20.0), Some(30.0), Some(40.0), Some(50.0)];
    var xs := [10.0, 20.0, 30.0, 40.0, 50.0];
    assert Clean(h) == xs by {
      assert Clean(h[4..]) == [50.0];
      assert Clean(h[3..]) == [40.0, 50.0];
      assert Clean(h[2..]) == [30.0, 40.0, 50.0];
      assert Clean(h[1..]) == [20.0, 30.0, 40.0, 50.0];
    }
    assert CountBelow(xs, 35.0) == 3 by {
      assert CountBelow(xs[4..], 35.0) == 0;
      assert CountBelow(xs[3..], 35.0) == 0;
      assert CountBelow(xs[2..], 35.0) == 1;
      assert CountBelow(xs[1..], 35.0) == 2;
    }
  }

  /** A list of present points. */
  function Present(xs: seq<real>): (r: seq<Option<real>>)
    ensures |r| == |xs|
  {
    if xs == [] then [] else [Some(xs[0])] + Present(xs[1..])
  }

  lemma {:induction false} CleanPresent(xs: seq<real>)
    ensures Clean(Present(xs)) == xs
  {
    if xs != [] {
      CleanPresent(xs[1..]);
    }
  }

  lemma {:induction false} SumAppend(a: seq<real>, b: seq<real>)
    ensures Sum(a + b) == Sum(a) + Sum(b)
  {
    if a != [] {
      assert (a + b)[1..] == a[1..] + b;
      SumAppend(a[1..], b);
    } else {
      assert a + b == b;
    }
  }

  lemma {:induction false} SumSqDevAppend(a: seq<real>, b: seq<real>, m: real)
    ensures SumSqDev(a + b, m) == SumSqDev(a, m) + SumSqDev(b, m)
  {
    if a != [] {
      var h := (a[0] - m) * (a[0] - m);
      assert SumSqDev(a + b, m) == h + SumSqDev(a[1..] + b, m) by {
        assert (a + b)[0] == a[0];
        assert (a + b)[1..] == a[1..] + b;
      }
      SumSqDevAppend(a[1..], b, m);
    } else {
      assert a + b == b;
    }
  }

  lemma {:induction false} SumSqDevConstant(xs: seq<real>, c: real, m: real)
    requires forall i :: 0 <= i < |xs| ==> xs[i] == c
    ensures SumSqDev(xs, m) == |xs| as real * ((c - m) * (c - m))
  {
    if xs != [] {
      SumSqDevConstant(xs[1..], c, m);
    }
  }
}
