// get_monthly_seasonality (engine/seasonality.py): monthly candles over ten
// years are grouped by calendar month and each month with data gets its
// average percentage move, its share of up months and its sample size.
// The candle fetch and the clock are parameters; rounding is not modelled.
module Seasonality {
  import opened Wrappers
  import opened Analytics

  /** One monthly candle; a missing open is None. */
  datatype Candle = Candle(month: int, open: Option<real>, close: real)

  /** The statistics of one calendar month. */
  datatype MonthStats = MonthStats(avgReturn: real, winRate: real, count: nat)

  /** The returned dictionary, without the month's display name. */
  datatype SeasonalProfile = SeasonalProfile(monthlyMap: map<int, MonthStats>, currentMonthStats: Option<MonthStats>)

  /** A candle is used when its open is present, non-zero and positive. */
  predicate Counts(c: Candle)
  {
    c.open.Some? && c.open.value != 0.0 && c.open.value > 0.0
  }

  /** The candle's move from open to close, in percent. */
  function Change(c: Candle): real
    requires Counts(c)
  {
    (c.close - c.open.value) / c.open.value * 100.0
  }

  predicate IsMonth(m: int)
  {
    1 <= m <= 12
  }

  /** The month buckets hold twelve keys; a used candle with any other month raises KeyError. */
  predicate MonthsValid(h: seq<Candle>)
  {
    forall i :: 0 <= i < |h| && Counts(h[i]) ==> IsMonth(h[i].month)
  }

  /** The moves of the used candles of month `m`, in history order. */
  function MonthChanges(h: seq<Candle>, m: int): (r: seq<real>)
    ensures |r| <= |h|
    ensures r != [] <==> exists i :: 0 <= i < |h| && Counts(h[i]) && h[i].month == m
  {
    if h == [] then []
    else
      var init := h[..|h| - 1];
      var c := h[|h| - 1];
      assert forall i :: 0 <= i < |init| ==> init[i] == h[i];
      MonthChanges(init, m) + (if Counts(c) && c.month == m then [Change(c)] else [])
  }

  /** The number of moves above zero. */
  function Wins(xs: seq<real>): (r: nat)
    ensures r <= |xs|
  {
    if xs == [] then 0 else (if xs[0] > 0.0 then 1 else 0) + Wins(xs[1..])
  }

  /** The statistics of a non-empty month: mean move, percentage of up moves, sample size. */
  function Stats(changes: seq<real>): (r: MonthStats)
    requires changes != []
    ensures r.count == |changes|
    ensures r.avgReturn == Mean(changes)
    ensures r.winRate == Wins(changes) as real / |changes| as real * 100.0
    ensures 0.0 <= r.winRate <= 100.0
    ensures r.winRate == 100.0 <==> Wins(changes) == |changes|
    ensures r.winRate == 0.0 <==> Wins(changes) == 0
  {
    var n := |changes| as real;
    var w := Wins(changes) as real;
    DivMonotone(0.0, w, n);
    DivMonotone(w, n, n);
    DivSelf(n);
    assert w / n == 1.0 ==> w == n;
    MonthStats(Mean(changes), w / n * 100.0, |changes|)
  }

  /** The statistics of every month that has at least one used candle. */
  function MonthlyMap(h: seq<Candle>): (r: map<int, MonthStats>)
    ensures forall m :: m in r <==> IsMonth(m) && MonthChanges(h, m) != []
  {
    map m | 1 <= m <= 12 && MonthChanges(h, m) != [] :: Stats(MonthChanges(h, m))
  }

  /**
   * get_monthly_seasonality: None for an empty history or when no candle is
   * used; otherwise the monthly map and the current month's entry.
   */
  function MonthlySeasonality(h: seq<Candle>, currentMonth: int): (r: Outcome<Option<SeasonalProfile>>)
  {
    if h == [] then Ok(None)
    else if !MonthsValid(h) then Raised
    else
      var stats := MonthlyMap(h);
      if stats == map[] then Ok(None)
      else Ok(Some(SeasonalProfile(stats, if currentMonth in stats then Some(stats[currentMonth]) else None)))
  }

  /** The twelve bucket keys. */
  const MonthKeys: set<int> := set m | 1 <= m <= 12

  /** The buckets hold one list per month: the moves of that month's used candles of `h`. */
  ghost predicate Bucketed(h: seq<Candle>, buckets: map<int, seq<real>>)
  {
    buckets.Keys == MonthKeys && forall m :: IsMonth(m) ==> buckets[m] == MonthChanges(h, m)
  }

  /** Extending the history by candle `i` extends its month's list by that candle's move, if used. */
  lemma MonthChangesNext(h: seq<Candle>, i: nat, m: int)
    requires i < |h|
    ensures MonthChanges(h[..i + 1], m)
         == MonthChanges(h[..i], m) + (if Counts(h[i]) && h[i].month == m then [Change(h[i])] else [])
  {
    assert h[..i + 1][..i] == h[..i];
  }

  /** Bucketing candle `i` keeps the buckets equal to the month lists. */
  lemma BucketedNext(h: seq<Candle>, i: nat, b0: map<int, seq<real>>, b: map<int, seq<real>>)
    requires i < |h| && Bucketed(h[..i], b0)
    requires Counts(h[i]) ==> IsMonth(h[i].month)
    requires b == if Counts(h[i]) then b0[h[i].month := b0[h[i].month] + [Change(h[i])]] else b0
    ensures Bucketed(h[..i + 1], b)
  {
    forall m | IsMonth(m)
      ensures b[m] == MonthChanges(h[..i + 1], m)
    {
      MonthChangesNext(h, i, m);
    }
  }

  /** The months stay valid over one more candle when that candle is not a used one outside the twelve months. */
  lemma MonthsValidNext(h: seq<Candle>, i: nat)
    requires i < |h| && MonthsValid(h[..i])
    requires Counts(h[i]) ==> IsMonth(h[i].month)
    ensures MonthsValid(h[..i + 1])
  {
    assert forall j :: 0 <= j < i ==> h[..i + 1][j] == h[..i][j];
  }

  /** One pass of the first loop: bucket candle `i`'s move, or report the KeyError of a used candle outside the twelve months. */
  method BucketCandle(h: seq<Candle>, i: nat, buckets0: map<int, seq<real>>) returns (ok: bool, buckets: map<int, seq<real>>)
    requires i < |h| && Bucketed(h[..i], buckets0)
    ensures ok <==> !Counts(h[i]) || IsMonth(h[i].month)
    ensures ok ==> Bucketed(h[..i + 1], buckets)
  {
    var c := h[i];
    buckets := buckets0;
    ok := true;
    if c.open.Some? && c.open.value != 0.0 && c.open.value > 0.0 {
      if !IsMonth(c.month) {
        return false, buckets;
      }
      var chg := (c.close - c.open.value) / c.open.value * 100.0;
      buckets := buckets[c.month := buckets[c.month] + [chg]];
    }
    BucketedNext(h, i, buckets0, buckets);
  }

  /** The first loop: the moves of the used candles, bucketed by month, or Raised on a used candle outside the twelve months. */
  method BucketByMonth(h: seq<Candle>) returns (r: Outcome<map<int, seq<real>>>)
    ensures r.Raised? <==> !MonthsValid(h)
    ensures r.Ok? ==> forall m :: m in r.value <==> IsMonth(m)
    ensures r.Ok? ==> forall m :: IsMonth(m) ==> r.value[m] == MonthChanges(h, m)
  {
    var buckets: map<int, seq<real>> := map m | m in MonthKeys :: [];
    for i := 0 to |h|
      invariant MonthsValid(h[..i])
      invariant Bucketed(h[..i], buckets)
    {
      var ok;
      ok, buckets := BucketCandle(h, i, buckets);
      if !ok {
        assert Counts(h[i]) && !IsMonth(h[i].month);
        return Raised;
      }
      MonthsValidNext(h, i);
    }
    assert h[..|h|] == h;
    r := Ok(buckets);
  }

  /** The second loop: the statistics of each non-empty bucket. */
  method SummariseMonths(h: seq<Candle>, buckets: map<int, seq<real>>) returns (seasonality: map<int, MonthStats>)
    requires forall m :: IsMonth(m) ==> m in buckets && buckets[m] == MonthChanges(h, m)
    ensures seasonality == MonthlyMap(h)
  {
    seasonality := map[];
    var m := 1;
    while m <= 12
      invariant 1 <= m <= 13
      invariant forall k :: k in seasonality <==> 1 <= k < m && MonthChanges(h, k) != []
      invariant forall k :: k in seasonality ==> seasonality[k] == Stats(MonthChanges(h, k))
    {
      var changes := buckets[m];
      if changes != [] {
        var n := |changes| as real;
        var avg := Sum(changes) / n;
        var winRate := Wins(changes) as real / n * 100.0;
        seasonality := seasonality[m := MonthStats(avg, winRate, |changes|)];
      }
      m := m + 1;
    }
  }

  method GetMonthlySeasonality(h: seq<Candle>, currentMonth: int) returns (r: Outcome<Option<SeasonalProfile>>)
    ensures r == MonthlySeasonality(h, currentMonth)
  {
    if h == [] {
      return Ok(None);
    }
    var buckets := BucketByMonth(h);
    if buckets.Raised? {
      return Raised;
    }
    var seasonality := SummariseMonths(h, buckets.value);
    if seasonality == map[] {
      return Ok(None);
    }
    var current := if currentMonth in seasonality then Some(seasonality[currentMonth]) else None;
    r := Ok(Some(SeasonalProfile(seasonality, current)));
  }

  // ----- properties --------------------------------------------------------

  /** The result is None exactly when no candle is used, and raises exactly on a used candle outside the twelve months. */
  lemma NoneWithoutUsableCandles(h: seq<Candle>, currentMonth: int)
    ensures MonthlySeasonality(h, currentMonth).Raised? <==> !MonthsValid(h)
    ensures MonthlySeasonality(h, currentMonth) == Ok(None) <==>
              MonthsValid(h) && forall i :: 0 <= i < |h| ==> !Counts(h[i])
  {
    if h != [] && MonthsValid(h) {
      var stats := MonthlyMap(h);
      if exists i :: 0 <= i < |h| && Counts(h[i]) {
        var i :| 0 <= i < |h| && Counts(h[i]);
        assert h[i].month in stats;
      }
    }
  }

  /** The current month's entry is the monthly map's, or None when that month has no data. */
  lemma CurrentMonthLookup(h: seq<Candle>, currentMonth: int)
    requires MonthlySeasonality(h, currentMonth).Ok? && MonthlySeasonality(h, currentMonth).value.Some?
    ensures var s := MonthlySeasonality(h, currentMonth).value.value;
            (s.currentMonthStats.Some? <==> IsMonth(currentMonth) && MonthChanges(h, currentMonth) != []) &&
            (s.currentMonthStats.Some? ==> s.currentMonthStats.value == Stats(MonthChanges(h, currentMonth)))
  {
  }

  /** The number of used candles. */
  function UsedCount(h: seq<Candle>): (r: nat)
    ensures r <= |h|
  {
    if h == [] then 0
    else UsedCount(h[..|h| - 1]) + (if Counts(h[|h| - 1]) then 1 else 0)
  }

  /** The sample sizes of months 1..k added up. */
  function CountsUpTo(h: seq<Candle>, k: int): nat
  {
    if k < 1 then 0 else CountsUpTo(h, k - 1) + |MonthChanges(h, k)|
  }

  lemma {:induction false} CountsUpToSnoc(h: seq<Candle>, c: Candle, k: int)
    ensures CountsUpTo(h + [c], k) == CountsUpTo(h, k) + (if Counts(c) && 1 <= c.month <= k then 1 else 0)
  {
    assert (h + [c])[..|h + [c]| - 1] == h;
    if k >= 1 {
      CountsUpToSnoc(h, c, k - 1);
    }
  }

  /** Every used candle lands in exactly one month: the sample sizes add up to the used candles. */
  lemma {:induction false} CountsAddUp(h: seq<Candle>)
    requires MonthsValid(h)
    ensures CountsUpTo(h, 12) == UsedCount(h)
  {
    if h != [] {
      var init := h[..|h| - 1];
      var c := h[|h| - 1];
      assert MonthsValid(init) by {
        forall i | 0 <= i < |init| && Counts(init[i])
          ensures IsMonth(init[i].month)
        {
          assert init[i] == h[i];
        }
      }
      CountsAddUp(init);
      assert h == init + [c];
      assert Counts(c) ==> IsMonth(c.month) by {
        assert c == h[|h| - 1];
      }
      CountsUpToSnoc(init, c, 12);
    } else {
      CountsUpToEmpty(12);
    }
  }

  lemma {:induction false} CountsUpToEmpty(k: int)
    ensures CountsUpTo([], k) == 0
  {
    if k >= 1 {
      CountsUpToEmpty(k - 1);
    }
  }

  /** A month whose every used move is positive has a win rate of 100 and a positive average. */
  lemma AllUpMonth(changes: seq<real>)
    requires changes != [] && forall i :: 0 <= i < |changes| ==> changes[i] > 0.0
    ensures Stats(changes).winRate == 100.0 && Stats(changes).avgReturn > 0.0
  {
    AllPositiveWins(changes);
    AllPositiveSum(changes);
  }

  lemma {:induction false} AllPositiveWins(xs: seq<real>)
    requires forall i :: 0 <= i < |xs| ==> xs[i] > 0.0
    ensures Wins(xs) == |xs|
  {
    if xs != [] {
      AllPositiveWins(xs[1..]);
    }
  }

  lemma {:induction false} AllPositiveSum(xs: seq<real>)
    requires xs != [] && forall i :: 0 <= i < |xs| ==> xs[i] > 0.0
    ensures Sum(xs) > 0.0
  {
    if |xs| > 1 {
      AllPositiveSum(xs[1..]);
    }
  }
}
