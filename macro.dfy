// The macro panel's derived figures (engine/macro.py): the EVDS series
// helpers, the Turkish bond yields and spreads, the CBRT rate tracker, the
// meeting and event calendars and the equity risk premium. Every network
// fetch is a parameter: an EVDS series is the list of its items, a scraped
// table is its rows of cell texts, the clock is today's ISO date.
module Macro {
  import opened Wrappers
  import opened Values
  import opened Text
  import opened Numbers
  import Sorting
  import Valuation

  /** One EVDS item: its "Tarih" date and the series column, Null when the column is absent or None. */
  datatype Observation = Observation(date: string, value: Value)

  /** An item whose column read as a number. */
  datatype Point = Point(date: string, level: real)

  // ----- _evds_last_value ----------------------------------------------------

  /** The column of the newest item that has one, scanning backwards; "N/A" when none has. */
  method EvdsLastValue(items: seq<Observation>) returns (v: Value)
    ensures (forall i :: 0 <= i < |items| ==> items[i].value == Null) ==> v == Str(NA)
    ensures (exists i :: 0 <= i < |items| && items[i].value != Null) ==>
              exists k :: 0 <= k < |items| && items[k].value != Null && v == items[k].value &&
                forall j :: k < j < |items| ==> items[j].value == Null
  {
    if items == [] {
      return Str(NA);
    }
    var i := |items|;
    while i > 0
      invariant 0 <= i <= |items|
      invariant forall j :: i <= j < |items| ==> items[j].value == Null
    {
      i := i - 1;
      if items[i].value != Null {
        return items[i].value;
      }
    }
    return Str(NA);
  }

  // ----- reading a series ----------------------------------------------------

  /** `float(str(v).replace(",", "."))`: numbers pass, text is read with a decimal comma; None and unreadable text give None. */
  function Reading(v: Value): Option<real>
  {
    match v
    case Null => None
    case Num(x) => Some(x)
    case Str(s) => ParseFloat(ReplaceChar(s, ',', '.'))
  }

  /** EVDS writes decimals with a comma; the reading is the decimal's value. */
  lemma DecimalCommaReading(ints: string, fracs: string)
    requires AllDigits(ints) && AllDigits(fracs) && |ints| > 0
    ensures Reading(Str(ints + "," + fracs)) == Some(DecimalValue(ints, fracs))
  {
    CommaToPoint(ints, fracs);
    ParseDecimalParts(ints, fracs);
  }

  /** An item with its column read: the level is None when the column is absent or unreadable. */
  datatype Sample = Sample(date: string, level: Option<real>)

  /** Each item's date with its column's reading, item by item. */
  function Sampled(items: seq<Observation>): (r: seq<Sample>)
    ensures |r| == |items|
  {
    seq(|items|, i requires 0 <= i < |items| => Sample(items[i].date, Reading(items[i].value)))
  }

  /** The samples that carry a level, in order, as (date, level) points. */
  function Readable(s: seq<Sample>): (r: seq<Point>)
    ensures |r| <= |s|
  {
    if s == [] then []
    else
      var x := s[|s| - 1];
      Readable(s[..|s| - 1]) + (match x.level case Some(y) => [Point(x.date, y)] case None => [])
  }

  /** The readable items of a series, in order, with their dates. */
  function Parsed(items: seq<Observation>): seq<Point>
  {
    Readable(Sampled(items))
  }

  /** Keeping the readable samples of two stretches keeps those of the whole. */
  lemma {:induction false} ReadableAppend(a: seq<Sample>, b: seq<Sample>)
    ensures Readable(a + b) == Readable(a) + Readable(b)
  {
    if b == [] {
      assert a + b == a;
    } else {
      var init := b[..|b| - 1];
      ReadableAppend(a, init);
      assert (a + b)[..|a + b| - 1] == a + init;
    }
  }

  /** Reading a series item by item: the readings of two stretches are the readings of the whole. */
  lemma ParsedAppend(a: seq<Observation>, b: seq<Observation>)
    ensures Parsed(a + b) == Parsed(a) + Parsed(b)
  {
    assert Sampled(a + b) == Sampled(a) + Sampled(b);
    ReadableAppend(Sampled(a), Sampled(b));
  }

  /** Only an item whose column reads as a number makes it into the series, with its own date and that number. */
  lemma ParsedOne(x: Observation)
    ensures Parsed([x]) == match Reading(x.value) case Some(y) => [Point(x.date, y)] case None => []
  {
    assert Sampled([x])[..0] == [];
  }

  /** One more sample adds its point when it carries a level. */
  lemma ReadableNext(samples: seq<Sample>, i: nat)
    requires i < |samples|
    ensures Readable(samples[..i + 1]) ==
            Readable(samples[..i]) + match samples[i].level case Some(y) => [Point(samples[i].date, y)] case None => []
  {
    assert samples[..i + 1][..i] == samples[..i];
  }

  /** The loop shared by the YoY and GDP helpers: keep each readable sample as (date, value). */
  method ParseSeries(samples: seq<Sample>) returns (vals: seq<Point>)
    ensures vals == Readable(samples)
  {
    vals := [];
    for i := 0 to |samples|
      invariant vals == Readable(samples[..i])
    {
      ReadableNext(samples, i);
      var y := samples[i].level;
      if y.Some? {
        vals := vals + [Point(samples[i].date, y.value)];
      }
    }
    assert samples[..|samples|] == samples;
  }

  // ----- _evds_yoy_from_index and _calc_gdp_yoy ------------------------------

  /** `(x / base - 1) * 100`: the percentage change from `base` to `x`. */
  function PctChange(base: real, x: real): real
    requires base != 0.0
  {
    (x / base - 1.0) * 100.0
  }

  /** Growing `base` by the percentage change gives back `x`. */
  lemma PctChangeInverse(base: real, x: real)
    requires base != 0.0
    ensures base * (1.0 + PctChange(base, x) / 100.0) == x
  {
    var q := x / base;
    assert (q - 1.0) * 100.0 / 100.0 == q - 1.0;
    assert base * q == x;
  }

  /** The (yoy, mom, date) triple; None stands for "N/A". */
  datatype IndexChange = IndexChange(yoy: Option<real>, mom: Option<real>, date: string)

  /**
   * Inflation from a price index: month-on-month against the previous
   * reading, year-on-year against the 13th reading from the end. A missing
   * series code gives an empty item list, which answers like one.
   */
  method EvdsYoyFromIndex(items: seq<Observation>) returns (r: IndexChange)
    ensures |Parsed(items)| < 2 ==> r == IndexChange(None, None, "")
    ensures var p := Parsed(items); |p| >= 2 ==> r.date == p[|p| - 1].date
    ensures var p := Parsed(items); r.mom.Some? <==> |p| >= 2 && p[|p| - 2].level != 0.0
    ensures var p := Parsed(items); r.mom.Some? ==> p[|p| - 2].level * (1.0 + r.mom.value / 100.0) == p[|p| - 1].level
    ensures var p := Parsed(items); r.yoy.Some? <==> |p| >= 13 && p[|p| - 13].level != 0.0
    ensures var p := Parsed(items); r.yoy.Some? ==> p[|p| - 13].level * (1.0 + r.yoy.value / 100.0) == p[|p| - 1].level
  {
    if items == [] {
      return IndexChange(None, None, "");
    }
    var vals := ParseSeries(Sampled(items));
    if |vals| < 2 {
      return IndexChange(None, None, "");
    }
    var last := vals[|vals| - 1].level;
    var prev := vals[|vals| - 2].level;
    var mom: Option<real> := None;
    if prev != 0.0 {
      PctChangeInverse(prev, last);
      mom := Some(PctChange(prev, last));
    }
    var yoy: Option<real> := None;
    if |vals| >= 13 && vals[|vals| - 13].level != 0.0 {
      PctChangeInverse(vals[|vals| - 13].level, last);
      yoy := Some(PctChange(vals[|vals| - 13].level, last));
    }
    r := IndexChange(yoy, mom, vals[|vals| - 1].date);
  }

  /** GDP growth: the newest quarterly reading against the one four quarters earlier. */
  method CalcGdpYoy(items: seq<Observation>) returns (yoy: Option<real>, date: string)
    ensures |Parsed(items)| < 5 ==> yoy.None? && date == ""
    ensures var p := Parsed(items); |p| >= 5 ==> date == p[|p| - 1].date
    ensures var p := Parsed(items); yoy.Some? <==> |p| >= 5 && p[|p| - 5].level != 0.0
    ensures var p := Parsed(items); yoy.Some? ==> p[|p| - 5].level * (1.0 + yoy.value / 100.0) == p[|p| - 1].level
  {
    if items == [] {
      return None, "";
    }
    var vals := ParseSeries(Sampled(items));
    assert vals == Parsed(items);
    if |vals| < 5 {
      return None, "";
    }
    var base := vals[|vals| - 5].level;
    var last := vals[|vals| - 1].level;
    yoy := None;
    if base != 0.0 {
      PctChangeInverse(base, last);
      yoy := Some(PctChange(base, last));
    }
    date := vals[|vals| - 1].date;
  }

  // ----- _fetch_bond_yields --------------------------------------------------

  datatype Tenor = TenYear | TwoYear | OtherTenor

  /** The tenor a lower-cased row name names; "10y" is tested before "2y". */
  function TenorOf(name: string): Tenor
  {
    if Contains(name, "10y") || Contains(name, "10 year") then TenYear
    else if Contains(name, "2y") || Contains(name, "2 year") then TwoYear
    else OtherTenor
  }

  /** The yield a table row sets for tenor `t`: its second cell read as a number, for rows of at least two cells naming that tenor. */
  function YieldFor(cells: seq<string>, t: Tenor): Option<real>
  {
    if |cells| >= 2 && TenorOf(Lower(cells[0])) == t then ParseFloat(cells[1]) else None
  }

  /** The last value `f` gives over `xs`: later ones overwrite earlier ones. */
  function Latest<T>(xs: seq<T>, f: T -> Option<real>): Option<real>
  {
    if xs == [] then None
    else if f(xs[|xs| - 1]).Some? then f(xs[|xs| - 1])
    else Latest(xs[..|xs| - 1], f)
  }

  /** The latest value comes from an element with no later value; there is none only when no element has one. */
  lemma {:induction false} LatestFacts<T>(xs: seq<T>, f: T -> Option<real>)
    ensures Latest(xs, f).None? <==> forall i :: 0 <= i < |xs| ==> f(xs[i]).None?
    ensures Latest(xs, f).Some? ==>
              exists k :: 0 <= k < |xs| && Latest(xs, f) == f(xs[k]) &&
                forall j :: k < j < |xs| ==> f(xs[j]).None?
  {
    if xs != [] {
      var init := xs[..|xs| - 1];
      var n := |xs| - 1;
      assert forall i :: 0 <= i < n ==> init[i] == xs[i];
      if f(xs[n]).Some? {
        assert Latest(xs, f) == f(xs[n]);
      } else {
        assert Latest(xs, f) == Latest(init, f);
        LatestFacts(init, f);
        if Latest(init, f).Some? {
          var k :| 0 <= k < n && Latest(init, f) == f(init[k]) && forall j :: k < j < n ==> f(init[j]).None?;
          assert Latest(xs, f) == f(xs[k]);
        }
      }
    }
  }

  /** The yield of the last row that sets tenor `t`. */
  function LatestYield(rows: seq<seq<string>>, t: Tenor): Option<real>
  {
    Latest(rows, cells => YieldFor(cells, t))
  }

  /** The latest yield is the one of a row for that tenor with no later such row; there is none only when no row sets it. */
  lemma LatestYieldFacts(rows: seq<seq<string>>, t: Tenor)
    ensures LatestYield(rows, t).None? <==> forall i :: 0 <= i < |rows| ==> YieldFor(rows[i], t).None?
    ensures LatestYield(rows, t).Some? ==>
              exists k :: 0 <= k < |rows| && LatestYield(rows, t) == YieldFor(rows[k], t) &&
                forall j :: k < j < |rows| ==> YieldFor(rows[j], t).None?
  {
    LatestFacts(rows, cells => YieldFor(cells, t));
  }

  /** The Trading Economics table loop: each row of two or more cells with a number sets the 10-year or 2-year yield. */
  method ScanBondTable(rows: seq<seq<string>>) returns (tr2y: Option<real>, tr10y: Option<real>)
    ensures tr10y == LatestYield(rows, TenYear)
    ensures tr2y == LatestYield(rows, TwoYear)
  {
    tr2y, tr10y := None, None;
    for i := 0 to |rows|
      invariant tr10y == LatestYield(rows[..i], TenYear)
      invariant tr2y == LatestYield(rows[..i], TwoYear)
    {
      assert rows[..i + 1][..i] == rows[..i];
      var cells := rows[i];
      if |cells| >= 2 {
        var name := Lower(cells[0]);
        var v := ParseFloat(cells[1]);
        if v.Some? {
          if Contains(name, "10y") || Contains(name, "10 year") {
            tr10y := v;
          } else if Contains(name, "2y") || Contains(name, "2 year") {
            tr2y := v;
          }
        }
      }
    }
    assert rows[..|rows|] == rows;
  }

  /** The yields and the two derived spreads; None stands for "N/A". */
  datatype BondYields = BondYields(tr2y: Option<real>, tr10y: Option<real>, us10y: Option<real>,
                                   spread: Option<real>, trYieldCurve: Option<real>)

  /** The Turkish-US 10-year spread and the Turkish 2s10s curve, each only when both legs are known. */
  function DeriveSpreads(tr2y: Option<real>, tr10y: Option<real>, us10y: Option<real>): (r: BondYields)
    ensures r.tr2y == tr2y && r.tr10y == tr10y && r.us10y == us10y
    ensures r.spread.Some? <==> tr10y.Some? && us10y.Some?
    ensures r.spread.Some? ==> us10y.value + r.spread.value == tr10y.value
    ensures r.trYieldCurve.Some? <==> tr10y.Some? && tr2y.Some?
    ensures r.trYieldCurve.Some? ==> tr2y.value + r.trYieldCurve.value == tr10y.value
  {
    var spread := if tr10y.Some? && us10y.Some? then Some(tr10y.value - us10y.value) else None;
    var curve := if tr10y.Some? && tr2y.Some? then Some(tr10y.value - tr2y.value) else None;
    BondYields(tr2y, tr10y, us10y, spread, curve)
  }

  /** The Turkish yields from the scraped table and the US 10-year from FRED, with the spreads derived from them. */
  method FetchBondYields(rows: seq<seq<string>>, us10y: Option<real>) returns (r: BondYields)
    ensures r.tr10y == LatestYield(rows, TenYear) && r.tr2y == LatestYield(rows, TwoYear) && r.us10y == us10y
    ensures r.spread.Some? <==> r.tr10y.Some? && us10y.Some?
    ensures r.spread.Some? ==> us10y.value + r.spread.value == r.tr10y.value
    ensures r.trYieldCurve.Some? <==> r.tr10y.Some? && r.tr2y.Some?
    ensures r.trYieldCurve.Some? ==> r.tr2y.value + r.trYieldCurve.value == r.tr10y.value
  {
    var tr2y, tr10y := ScanBondTable(rows);
    r := DeriveSpreads(tr2y, tr10y, us10y);
  }

  // ----- fetch_cbrt_tracker --------------------------------------------------

  /** The date of the newest reading whose rate differs from the reading before it. */
  function LastChange(h: seq<Point>): Option<string>
  {
    if |h| < 2 then None
    else if h[|h| - 1].level != h[|h| - 2].level then Some(h[|h| - 1].date)
    else LastChange(h[..|h| - 1])
  }

  /** A new reading is the last change when its rate differs from the newest one before it. */
  lemma LastChangeNext(h: seq<Point>, x: Point)
    ensures LastChange(h + [x]) ==
            if h != [] && x.level != h[|h| - 1].level then Some(x.date) else LastChange(h)
  {
    assert (h + [x])[..|h|] == h;
  }

  /** The most recent rate of `h` that differs from `current`. */
  function Previous(h: seq<Point>, current: real): (r: Option<real>)
    ensures r.Some? ==> r.value != current
  {
    if h == [] then None
    else if h[|h| - 1].level != current then Some(h[|h| - 1].level)
    else Previous(h[..|h| - 1], current)
  }

  /** The history with each run of equal rates collapsed to the run's first reading. */
  function Changes(h: seq<Point>): (r: seq<Point>)
    ensures |r| <= |h|
    ensures h != [] ==> r != [] && r[|r| - 1].level == h[|h| - 1].level
  {
    if h == [] then []
    else
      var c := Changes(h[..|h| - 1]);
      var x := h[|h| - 1];
      if c == [] || c[|c| - 1].level != x.level then c + [x] else c
  }

  /** The readings that start a run: the first one, and each whose rate differs from its predecessor's. */
  function RunStarts(h: seq<Point>): seq<Point>
  {
    if h == [] then []
    else
      var x := h[|h| - 1];
      RunStarts(h[..|h| - 1]) + (if |h| == 1 || x.level != h[|h| - 2].level then [x] else [])
  }

  /** Collapsing runs keeps exactly the readings that start a run. */
  lemma {:induction false} ChangesAreRunStarts(h: seq<Point>)
    ensures Changes(h) == RunStarts(h)
  {
    if h != [] {
      ChangesAreRunStarts(h[..|h| - 1]);
    }
  }

  /** The collapsed history starts with the first reading and never repeats a rate twice in a row. */
  lemma {:induction false} ChangesFacts(h: seq<Point>)
    ensures h != [] ==> Changes(h)[0] == h[0]
    ensures forall i :: 0 < i < |Changes(h)| ==> Changes(h)[i].level != Changes(h)[i - 1].level
  {
    if h != [] {
      var init := h[..|h| - 1];
      ChangesFacts(init);
      if init != [] {
        assert init[0] == h[0];
      }
    }
  }

  /** The last change date is the date of the newest collapsed entry, when there are at least two. */
  lemma {:induction false} LastChangeIsNewest(h: seq<Point>)
    ensures var c := Changes(h); LastChange(h) == if |c| >= 2 then Some(c[|c| - 1].date) else None
  {
    if h != [] {
      var init := h[..|h| - 1];
      LastChangeIsNewest(init);
      if |h| >= 2 {
        assert h[..|h| - 1][..|h| - 2] == h[..|h| - 2];
        assert init[|init| - 1] == h[|h| - 2];
      }
    }
  }

  /** The previous rate is the rate of the second-newest collapsed entry, when there are at least two. */
  lemma {:induction false} PreviousIsPenultimate(h: seq<Point>)
    requires h != []
    ensures var c := Changes(h);
            Previous(h[..|h| - 1], h[|h| - 1].level) == if |c| >= 2 then Some(c[|c| - 2].level) else None
  {
    var init := h[..|h| - 1];
    var x := h[|h| - 1];
    if init != [] {
      var y := init[|init| - 1];
      if y.level == x.level {
        PreviousIsPenultimate(init);
      }
    }
  }

  /** The first loop: keep each readable sample, and note its date whenever its rate differs from the previous one kept. */
  method TrackRates(samples: seq<Sample>) returns (hist: seq<Point>, lastChange: Option<string>)
    ensures hist == Readable(samples)
    ensures lastChange == LastChange(hist)
  {
    hist, lastChange := [], None;
    var prev: Option<real> := None;
    for i := 0 to |samples|
      invariant hist == Readable(samples[..i])
      invariant lastChange == LastChange(hist)
      invariant prev == if hist == [] then None else Some(hist[|hist| - 1].level)
    {
      ReadableNext(samples, i);
      var y := samples[i].level;
      if y.Some? {
        var rate := y.value;
        LastChangeNext(hist, Point(samples[i].date, rate));
        hist := hist + [Point(samples[i].date, rate)];
        if prev.Some? && rate != prev.value {
          lastChange := Some(samples[i].date);
        }
        prev := Some(rate);
      }
    }
    assert samples[..|samples|] == samples;
  }

  /** The backward scan for the most recent rate that differs from the current one. */
  method PreviousRate(hist: seq<Point>) returns (previous: Option<real>)
    requires hist != []
    ensures previous == Previous(hist[..|hist| - 1], hist[|hist| - 1].level)
  {
    var current := hist[|hist| - 1].level;
    var i := |hist| - 2;
    while i >= 0
      invariant -1 <= i <= |hist| - 2
      invariant Previous(hist[..|hist| - 1], current) == Previous(hist[..i + 1], current)
    {
      assert hist[..i + 1][..i] == hist[..i];
      if hist[i].level != current {
        return Some(hist[i].level);
      }
      i := i - 1;
    }
    return None;
  }

  /** The third loop: keep a reading only when its rate differs from the last one kept. */
  method CompressChanges(hist: seq<Point>) returns (changes: seq<Point>)
    ensures changes == Changes(hist)
  {
    changes := [];
    var lastRate: Option<real> := None;
    for i := 0 to |hist|
      invariant changes == Changes(hist[..i])
      invariant lastRate == if changes == [] then None else Some(changes[|changes| - 1].level)
    {
      assert hist[..i + 1][..i] == hist[..i];
      if lastRate.None? || hist[i].level != lastRate.value {
        changes := changes + [hist[i]];
        lastRate := Some(hist[i].level);
      }
    }
    assert hist[..|hist|] == hist;
  }

  const HistoryLimit: nat := 24

  /** `xs[-n:]`: the last n elements, or all of them when there are fewer. */
  function LastN(xs: seq<Point>, n: nat): (r: seq<Point>)
    ensures |r| == if |xs| < n then |xs| else n
    ensures r == xs[|xs| - |r|..]
  {
    if |xs| <= n then xs else xs[|xs| - n..]
  }

  /** The tracker's answer; None stands for "N/A". */
  datatype Tracker = Tracker(currentRate: Option<real>, previousRate: Option<real>, lastChangeDate: Option<string>,
                             nextMeeting: string, history: seq<Point>)

  /** fetch_cbrt_tracker over the policy-rate series' items and today's date (the cache is left out). */
  method FetchCbrtTracker(items: seq<Observation>, today: string) returns (t: Tracker)
    ensures t.nextMeeting == NextCbrtMeeting(today)
    ensures var h := Parsed(items);
            t.currentRate == (if h == [] then None else Some(h[|h| - 1].level)) &&
            t.previousRate == (if h == [] then None else Previous(h[..|h| - 1], h[|h| - 1].level)) &&
            t.lastChangeDate == LastChange(h) &&
            t.history == History(h)
  {
    t := Tracker(None, None, None, NextCbrtMeeting(today), []);
    if items != [] {
      var hist, lastChange := TrackRates(Sampled(items));
      t := t.(lastChangeDate := lastChange);
      if hist != [] {
        var previous := PreviousRate(hist);
        var changes := CompressChanges(hist);
        t := t.(currentRate := Some(hist[|hist| - 1].level), previousRate := previous,
                history := LastN(changes, HistoryLimit));
      }
    }
  }

  /** The tracker's history: the collapsed readings, the newest 24 of them. */
  function History(h: seq<Point>): seq<Point>
  {
    LastN(Changes(h), HistoryLimit)
  }

  /**
   * The tracker's history holds at most 24 entries, no two neighbours with
   * the same rate, ends at the current rate, and starts at the first reading
   * when there were at most 24 changes.
   */
  lemma HistoryRuns(h: seq<Point>)
    requires h != []
    ensures var hs := History(h);
            |hs| <= HistoryLimit && hs != [] &&
            (forall i :: 0 < i < |hs| ==> hs[i].level != hs[i - 1].level) &&
            hs[|hs| - 1].level == h[|h| - 1].level &&
            (|Changes(h)| <= HistoryLimit ==> hs[0] == h[0])
  {
    var c := Changes(h);
    var hs := History(h);
    var d := |c| - |hs|;
    assert hs == c[d..];
    assert forall i :: 0 < i < |c| ==> c[i].level != c[i - 1].level by {
      ChangesFacts(h);
    }
    forall i | 0 < i < |hs|
      ensures hs[i].level != hs[i - 1].level
    {
      assert hs[i] == c[d + i] && hs[i - 1] == c[d + i - 1];
    }
    if |c| <= HistoryLimit {
      assert c[0] == h[0] by {
        ChangesFacts(h);
      }
    }
  }

  /** With at least two history entries, the newest gives the last change date and the one before it the previous rate. */
  lemma HistoryEnds(h: seq<Point>)
    requires h != []
    ensures var hs := History(h);
            |hs| >= 2 ==> LastChange(h) == Some(hs[|hs| - 1].date) &&
                          Previous(h[..|h| - 1], h[|h| - 1].level) == Some(hs[|hs| - 2].level)
  {
    var c := Changes(h);
    var hs := History(h);
    if |hs| >= 2 {
      assert hs == c[|c| - |hs|..];
      assert hs[|hs| - 1] == c[|c| - 1] && hs[|hs| - 2] == c[|c| - 2];
      LastChangeIsNewest(h);
      PreviousIsPenultimate(h);
    }
  }

  // ----- _get_next_cbrt_meeting ----------------------------------------------

  /** The MPC meeting dates the source lists for the next meeting. */
  const CbrtMeetings: seq<string> :=
    ["2026-03-12", "2026-04-22", "2026-06-11", "2026-07-23", "2026-09-10", "2026-10-22", "2026-12-10", "2027-01-21"]

  /** The index of the first date not before `today` (string comparison), or |dates| when every date is earlier. */
  function FirstOnOrAfter(dates: seq<string>, today: string): (k: nat)
    ensures k <= |dates|
    ensures k < |dates| ==> !LexLess(dates[k], today)
    ensures forall j :: 0 <= j < k ==> LexLess(dates[j], today)
  {
    if dates == [] then 0
    else if !LexLess(dates[0], today) then 0
    else 1 + FirstOnOrAfter(dates[1..], today)
  }

  /** The first listed meeting on or after today, or "TBD". */
  function NextCbrtMeeting(today: string): (r: string)
    ensures r == "TBD" <==> forall j :: 0 <= j < |CbrtMeetings| ==> LexLess(CbrtMeetings[j], today)
    ensures r != "TBD" ==> r in CbrtMeetings && !LexLess(r, today)
  {
    var k := FirstOnOrAfter(CbrtMeetings, today);
    if k < |CbrtMeetings| then
      assert CbrtMeetings[k] != "TBD" by {
        assert |CbrtMeetings[k]| == 10;
      }
      CbrtMeetings[k]
    else "TBD"
  }

  // ----- fetch_economic_calendar ---------------------------------------------

  datatype Event = Event(date: string, name: string, country: string, importance: string)

  const CbrtMpcDates: seq<string> :=
    ["2026-03-12", "2026-04-22", "2026-06-11", "2026-07-23", "2026-09-10", "2026-10-22", "2026-12-10"]

  const FomcDates: seq<string> :=
    ["2026-03-18", "2026-04-29", "2026-06-17", "2026-07-29", "2026-09-16", "2026-10-28", "2026-12-09"]

  /** One high-importance event per date. */
  function Meetings(dates: seq<string>, name: string, country: string): (r: seq<Event>)
    ensures |r| == |dates|
    ensures forall i :: 0 <= i < |r| ==> r[i] == Event(dates[i], name, country, "high")
  {
    if dates == [] then []
    else Meetings(dates[..|dates| - 1], name, country) + [Event(dates[|dates| - 1], name, country, "high")]
  }

  /** `f"{m:02d}"` for a month. */
  function Pad2(m: nat): (r: string)
    requires m < 100
    ensures |r| == 2 && AllDigits(r)
  {
    if m < 10 then "0" + NatToDigits(m)
    else
      assert |NatToDigits(m / 10)| == 1;
      NatToDigits(m)
  }

  /** `2026-MM-DD` for month m. */
  function MonthDate(m: nat, day: string): string
    requires m < 100
  {
    "2026-" + Pad2(m) + "-" + day
  }

  /** The two monthly CPI releases of month m. */
  function MonthReleases(m: nat): seq<Event>
    requires m < 100
  {
    [Event(MonthDate(m, "03"), "TR CPI Release", "TR", "high"), Event(MonthDate(m, "13"), "US CPI Release", "US", "high")]
  }

  /** The releases of months 2 .. m - 1. */
  function Releases(m: nat): (r: seq<Event>)
    requires m <= 100
    ensures |r| == if m <= 2 then 0 else 2 * (m - 2)
  {
    if m <= 2 then [] else Releases(m - 1) + MonthReleases(m - 1)
  }

  /** The CPI releases run over months 2 .. 12 (`range(2, 13)`). */
  const ReleasesEnd: nat := 13

  /** The events in the order the source appends them. */
  function RawCalendar(): seq<Event>
  {
    Meetings(CbrtMpcDates, "CBRT MPC Meeting", "TR") + Meetings(FomcDates, "FOMC Rate Decision", "US") + Releases(ReleasesEnd)
  }

  function EventDate(e: Event): string
  {
    e.date
  }

  /** Python's string `<`, the order `sort(key=date)` uses. */
  function DateLess(): (string, string) -> bool
  {
    (a: string, b: string) => LexLess(a, b)
  }

  lemma DateLessTotal()
    ensures Sorting.StrictTotalOrder(DateLess())
  {
    forall a: string
      ensures !LexLess(a, a)
    {
      LexLessIrreflexive(a);
    }
    forall a: string, b: string, c: string | LexLess(a, b) && LexLess(b, c)
      ensures LexLess(a, c)
    {
      LexLessTransitive(a, b, c);
    }
    forall a: string, b: string
      ensures a == b || LexLess(a, b) || LexLess(b, a)
    {
      LexLessTotal(a, b);
    }
  }

  /** One of the two meeting loops: append an event per date. */
  method AppendMeetings(events0: seq<Event>, dates: seq<string>, name: string, country: string)
    returns (events: seq<Event>)
    ensures events == events0 + Meetings(dates, name, country)
  {
    events := events0;
    for i := 0 to |dates|
      invariant events == events0 + Meetings(dates[..i], name, country)
    {
      assert dates[..i + 1][..i] == dates[..i];
      events := events + [Event(dates[i], name, country, "high")];
    }
    assert dates[..|dates|] == dates;
  }

  /** Sorting by date orders the events, keeps them all, and keeps events of the same date in their order. */
  lemma SortByDate(raw: seq<Event>)
    ensures var s := Sorting.SortBy(raw, EventDate, DateLess());
            Sorting.SortedBy(s, EventDate, DateLess()) && multiset(s) == multiset(raw) &&
            forall d :: Sorting.WithKey(s, EventDate, d) == Sorting.WithKey(raw, EventDate, d)
  {
    DateLessTotal();
    Sorting.SortBySorted(raw, EventDate, DateLess());
    forall d
      ensures Sorting.WithKey(Sorting.SortBy(raw, EventDate, DateLess()), EventDate, d) == Sorting.WithKey(raw, EventDate, d)
    {
      Sorting.SortByStable(raw, EventDate, DateLess(), d);
    }
  }

  /** The CPI loop: append the Turkish and the US release of each month from February to December. */
  method AppendReleases(events0: seq<Event>) returns (events: seq<Event>)
    ensures events == events0 + Releases(ReleasesEnd)
  {
    events := events0;
    for m := 2 to ReleasesEnd
      invariant events == events0 + Releases(m)
    {
      events := events + [Event(MonthDate(m, "03"), "TR CPI Release", "TR", "high")];
      events := events + [Event(MonthDate(m, "13"), "US CPI Release", "US", "high")];
    }
  }

  /**
   * The 36 events of the year, sorted by date; the sort is stable, so events
   * of the same date keep the order they were appended in.
   */
  method EconomicCalendar() returns (events: seq<Event>)
    ensures |events| == 36
    ensures Sorting.SortedBy(events, EventDate, DateLess())
    ensures multiset(events) == multiset(RawCalendar())
    ensures forall d :: Sorting.WithKey(events, EventDate, d) == Sorting.WithKey(RawCalendar(), EventDate, d)
  {
    var raw := AppendMeetings([], CbrtMpcDates, "CBRT MPC Meeting", "TR");
    raw := AppendMeetings(raw, FomcDates, "FOMC Rate Decision", "US");
    raw := AppendReleases(raw);
    assert raw == RawCalendar();
    SortByDate(raw);
    events := Sorting.SortBy(raw, EventDate, DateLess());
    assert |events| == |raw| by {
      assert |events| == |multiset(events)| == |multiset(raw)| == |raw|;
    }
    RawCalendarSize();
  }

  /** Seven Turkish meetings, seven FOMC meetings and two releases for each of eleven months. */
  lemma RawCalendarSize()
    ensures |RawCalendar()| == 36
  {
    assert |Meetings(CbrtMpcDates, "CBRT MPC Meeting", "TR")| == 7;
    assert |Meetings(FomcDates, "FOMC Rate Decision", "US")| == 7;
  }

  // ----- fetch_erp -----------------------------------------------------------

  /** The ERP answer; None stands for "N/A". */
  datatype EquityRisk = EquityRisk(pe: Option<real>, earningsYield: Option<real>, tr10y: Option<real>, erp: Option<real>)

  /** fetch_erp as written: `100 / pe` has no guard, so a P/E of zero raises ZeroDivisionError. */
  function FetchErpAsWritten(pe: Option<real>, tr10y: Option<real>): (r: Outcome<EquityRisk>)
    ensures r.Raised? <==> pe == Some(0.0) && tr10y.Some?
    ensures r.Ok? && pe.Some? && tr10y.Some? ==>
              r.value.erp.Some? && r.value.earningsYield.Some? && r.value.erp.value + tr10y.value == r.value.earningsYield.value &&
              r.value.earningsYield.value * pe.value == 100.0
  {
    if pe.Some? && tr10y.Some? then
      if pe.value == 0.0 then Raised
      else
        var ey := 100.0 / pe.value;
        Ok(EquityRisk(pe, Some(ey), tr10y, Some(ey - tr10y.value)))
    else Ok(EquityRisk(pe, None, tr10y, None))
  }

  /** A scraped P/E of 0 with a known 10-year yield makes the ERP fetch raise. */
  lemma ZeroPeRaises()
    ensures FetchErpAsWritten(Some(0.0), Some(30.0)).Raised?
  {
  }

  /** A negative P/E gives a negative earnings yield, which compute_fair_value refuses to use. */
  lemma NegativePeGivesNegativeYield()
    ensures FetchErpAsWritten(Some(-4.0), Some(30.0)) == Ok(EquityRisk(Some(-4.0), Some(-25.0), Some(30.0), Some(-55.0)))
  {
  }

  /** fetch_erp with the positive-P/E guard compute_fair_value applies to the same inputs. */
  function FetchErp(pe: Option<real>, tr10y: Option<real>): (r: EquityRisk)
    ensures r.pe == pe && r.tr10y == tr10y
    ensures r.earningsYield.Some? <==> pe.Some? && pe.value > 0.0 && tr10y.Some?
    ensures r.earningsYield.Some? ==> r.earningsYield.value * pe.value == 100.0 && r.earningsYield.value > 0.0
    ensures r.erp.Some? <==> r.earningsYield.Some?
    ensures r.erp.Some? ==> r.erp.value + tr10y.value == r.earningsYield.value
  {
    if pe.Some? && pe.value > 0.0 && tr10y.Some? then
      var ey := 100.0 / pe.value;
      EquityRisk(pe, Some(ey), tr10y, Some(ey - tr10y.value))
    else EquityRisk(pe, None, tr10y, None)
  }

  /** Where the source's arithmetic succeeds on a positive P/E or a missing input, the guarded fetch agrees with it. */
  lemma FetchErpAgrees(pe: Option<real>, tr10y: Option<real>)
    requires pe.None? || tr10y.None? || pe.value > 0.0
    ensures FetchErpAsWritten(pe, tr10y) == Ok(FetchErp(pe, tr10y))
  {
  }

  /** The guarded premium is the one compute_fair_value's ERP_YIELD model reports for the same P/E and yield. */
  lemma FetchErpMatchesValuation(pe: real, tr10y: real)
    ensures var v := Valuation.ErpYield(map["tr_10y" := Num(tr10y), "pe" := Num(pe)]);
            (FetchErp(Some(pe), Some(tr10y)).erp.Some? <==> v.payload.ErpValue?) &&
            (v.payload.ErpValue? ==> FetchErp(Some(pe), Some(tr10y)).erp.value == v.payload.erp)
  {
    var values := map["tr_10y" := Num(tr10y), "pe" := Num(pe)];
    assert Valuation.InputOf(values, "tr_10y") == Num(tr10y);
    assert Valuation.InputOf(values, "pe") == Num(pe);
  }
}
