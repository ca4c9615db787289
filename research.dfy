// The research desk's deterministic helpers: the number formatting of the
// daily brief (`_fmt`, `_sign`), the date the performance query looks at,
// the chart statistics and sampling put into the chat context, the trigger
// words that switch on the extra context sections, and the de-duplication of
// archived news by title. The language-model calls themselves are not here.
module Research {
  import opened Wrappers
  import opened Text
  import opened Numbers
  import opened Values
  import Sorting

  // ---------------------------------------------------------------------
  // Fixed-point formatting: `f"{x:.2f}"` and `f"{x:,.2f}"`
  // ---------------------------------------------------------------------

  /** `x * 100` rounded to the nearest integer, ties to even. */
  function Cents(x: real): (c: nat)
    requires x >= 0.0
    ensures c as real - 0.5 <= x * 100.0 <= c as real + 0.5
  {
    var y := x * 100.0;
    var f := y.Floor;
    var frac := y - f as real;
    if frac > 0.5 || (frac == 0.5 && f % 2 == 1) then f + 1 else f
  }

  function Digit(n: nat): (d: char)
    requires n < 10
  {
    ('0' as int + n) as char
  }

  /** The two fraction digits of a fixed-point number with two places. */
  function TwoDigits(n: nat): (r: string)
    requires n < 100
    ensures |r| == 2 && AllDigits(r)
    ensures DigitsValue(r) == n
  {
    var r := [Digit(n / 10), Digit(n % 10)];
    assert r[..1][..0] == [];
    assert r[..|r| - 1] == r[..1];
    r
  }

  /** Digits with a ',' between every group of three, counted from the right. */
  function Group(d: string): (r: string)
    requires AllDigits(d)
    ensures RemoveChar(r, ',') == d
    ensures d != [] ==> r != [] && r[0] == d[0] && r[|r| - 1] == d[|d| - 1]
    decreases |d|
  {
    if |d| <= 3 then
      DigitsNoSeparator(d);
      RemoveCharAbsent(d, ',');
      d
    else
      var head, tail := d[..|d| - 3], d[|d| - 3..];
      assert d == head + tail;
      var g := Group(head);
      DigitsNoSeparator(tail);
      RemoveCharAppend(g + ",", tail, ',');
      RemoveCharAppend(g, ",", ',');
      RemoveCharAbsent(tail, ',');
      g + "," + tail
  }

  /** The unsigned digits of a number of cents, "<units>.<two digits>", units grouped by thousands when asked. */
  function Body(c: nat, grouped: bool): (r: string)
    ensures r != [] && IsDigit(r[0])
  {
    var ints := NatToDigits(c / 100);
    var g := if grouped then Group(ints) else ints;
    assert g[0] == ints[0];
    g + "." + TwoDigits(c % 100)
  }

  /** `f"{x:.2f}"`, and `f"{x:,.2f}"` when `grouped`. */
  function Fixed(x: real, grouped: bool): (r: string)
  {
    (if x < 0.0 then "-" else "") + Body(Cents(if x < 0.0 then -x else x), grouped)
  }

  lemma CentsSplit(c: nat)
    ensures (c / 100) as real + (c % 100) as real / 100.0 == c as real / 100.0
  {
    var q, m := c / 100, c % 100;
    assert c == 100 * q + m;
    assert c as real == 100.0 * (q as real) + m as real;
  }

  /** The decimal `Fixed` writes for a number of cents has that many hundredths as its value. */
  lemma DecimalOfCents(c: nat)
    ensures DecimalValue(NatToDigits(c / 100), TwoDigits(c % 100)) == c as real / 100.0
  {
    var ints, fr := NatToDigits(c / 100), TwoDigits(c % 100);
    DigitsRoundTrip(c / 100);
    assert Pow10(2) == 100;
    assert DecimalValue(ints, fr) == (c / 100) as real + (c % 100) as real / 100.0;
    CentsSplit(c);
  }

  /** The ungrouped body is an unsigned decimal worth the cents over 100. */
  lemma BodyValue(c: nat)
    ensures var u := Body(c, false);
      ParseUnsigned(u) == Some(c as real / 100.0) && ParseFloat(u) == Some(c as real / 100.0) &&
      !IsSpace(u[|u| - 1]) && ',' !in u
  {
    BodyParses(c);
    BodyEnds(c);
  }

  lemma BodyParses(c: nat)
    ensures var u := Body(c, false);
      ParseUnsigned(u) == Some(c as real / 100.0) && ParseFloat(u) == Some(c as real / 100.0)
  {
    var ints, fr := NatToDigits(c / 100), TwoDigits(c % 100);
    var u := ints + "." + fr;
    assert Body(c, false) == u;
    var v := DecimalValue(ints, fr);
    assert ParseUnsigned(u) == Some(v) && ParseFloat(u) == Some(v) by {
      UnsignedDecimal(ints, fr);
      ParseDecimalParts(ints, fr);
    }
    assert v == c as real / 100.0 by {
      DecimalOfCents(c);
    }
  }

  lemma BodyEnds(c: nat)
    ensures var u := Body(c, false); !IsSpace(u[|u| - 1]) && ',' !in u
  {
    var ints, fr := NatToDigits(c / 100), TwoDigits(c % 100);
    var u := Body(c, false);
    assert u == ints + "." + fr;
    assert u[|u| - 1] == fr[1];
    DigitsNoSeparator(ints);
    DigitsNoSeparator(fr);
  }

  /** Dropping the thousands separators of the grouped body gives the plain one. */
  lemma BodyCommas(c: nat, grouped: bool)
    ensures RemoveChar(Body(c, grouped), ',') == Body(c, false)
  {
    var ints, fr := NatToDigits(c / 100), TwoDigits(c % 100);
    var g := if grouped then Group(ints) else ints;
    assert Body(c, grouped) == g + "." + fr;
    assert Body(c, false) == ints + "." + fr;
    DigitsNoSeparator(ints);
    DigitsNoSeparator(fr);
    RemoveCharAppend(g + ".", fr, ',');
    RemoveCharAppend(g, ".", ',');
    RemoveCharAbsent(fr, ',');
    RemoveCharAbsent(".", ',');
    if !grouped {
      RemoveCharAbsent(ints, ',');
    }
  }

  /**
   * Reading a formatted number back (thousands separators dropped) gives a
   * value within half a cent of the number, with the number's sign.
   */
  lemma FixedReads(x: real, grouped: bool)
    ensures var r := Fixed(x, grouped);
      r != [] && (r[0] == '-' <==> x < 0.0) && (!grouped ==> ',' !in r) &&
      var v := ParseFloat(RemoveChar(r, ','));
      v.Some? && -0.005 <= v.value - x <= 0.005
  {
    var c := Cents(if x < 0.0 then -x else x);
    var sign := if x < 0.0 then "-" else "";
    var b, u := Body(c, grouped), Body(c, false);
    var r := Fixed(x, grouped);
    assert r == sign + b;
    BodyCommas(c, grouped);
    BodyValue(c);
    RemoveCharAppend(sign, b, ',');
    RemoveCharAbsent(sign, ',');
    if x < 0.0 {
      ParseNegative(u);
      assert r[0] == '-';
    } else {
      assert sign + u == u;
      assert r[0] == b[0];
    }
  }

  /** `_fmt`: missing values print as "N/A", numbers with two decimals (grouped from 10000 on), anything else as itself. */
  function Fmt(v: Value): (r: string)
    ensures v.Num? ==> r != [] && (r[0] == '-' <==> v.n < 0.0) && r != NA
  {
    if IsMissing(v) then NA
    else if v.Num? then Fixed(v.n, v.n >= 10000.0 || v.n <= -10000.0)
    else v.s
  }

  lemma FmtCases(v: Value)
    ensures IsMissing(v) ==> Fmt(v) == NA
    ensures v.Str? && !IsMissing(v) ==> Fmt(v) == v.s
    ensures v.Num? && -10000.0 < v.n < 10000.0 ==> ',' !in Fmt(v)
    ensures v.Num? ==> var p := ParseFloat(RemoveChar(Fmt(v), ','));
      p.Some? && -0.005 <= p.value - v.n <= 0.005
  {
    if v.Num? {
      FixedReads(v.n, v.n >= 10000.0 || v.n <= -10000.0);
    }
  }

  /** `_sign`: a signed percentage, "+" exactly for non-negative numbers. */
  function Sign(v: Value): (r: string)
    ensures v.Num? ==> |r| >= 2 && r[|r| - 1] == '%' && (r[0] == '+' <==> v.n >= 0.0) && (r[0] == '-' <==> v.n < 0.0)
  {
    if IsMissing(v) then NA
    else if v.Num? then (if v.n >= 0.0 then "+" + Fixed(v.n, false) else Fixed(v.n, false)) + "%"
    else v.s
  }

  /** An explicit '+' in front of an unsigned decimal leaves its value alone. */
  lemma PlusReads(u: string, v: real)
    requires ParseUnsigned(u) == Some(v) && !IsSpace(u[|u| - 1])
    ensures ParseFloat("+" + u) == Some(v)
  {
    var t := "+" + u;
    assert t[0] == '+' && t[|t| - 1] == u[|u| - 1];
    assert t[1..] == u;
    calc {
      ParseFloat(t);
      ParseSigned(Strip(t));
      { StripTrimmed(t); }
      ParseSigned(t);
      ParseUnsigned(u);
    }
  }

  lemma PlusBodyReads(c: nat)
    ensures ParseFloat("+" + Body(c, false)) == Some(c as real / 100.0)
  {
    BodyValue(c);
    PlusReads(Body(c, false), c as real / 100.0);
  }

  /** The reading-back property of a signed percentage, for both signs. */
  predicate ReadsAsPercent(r: string, x: real)
  {
    |r| >= 2 && r[|r| - 1] == '%' && (r[0] == '+' <==> x >= 0.0) && (r[0] == '-' <==> x < 0.0) &&
    var p := ParseFloat(r[..|r| - 1]);
    p.Some? && -0.005 <= p.value - x <= 0.005
  }

  lemma SignUp(x: real)
    requires x >= 0.0
    ensures ReadsAsPercent(Sign(Num(x)), x)
  {
    var c := Cents(x);
    var u := Body(c, false);
    var r := Sign(Num(x));
    assert Fixed(x, false) == u;
    assert r == "+" + u + "%";
    assert r[..|r| - 1] == "+" + u;
    PlusBodyReads(c);
  }

  lemma SignDown(x: real)
    requires x < 0.0
    ensures ReadsAsPercent(Sign(Num(x)), x)
  {
    var f := Fixed(x, false);
    var r := Sign(Num(x));
    FixedReads(x, false);
    RemoveCharAbsent(f, ',');
    assert r == f + "%";
    assert r[..|r| - 1] == f;
  }

  lemma SignCases(v: Value)
    ensures IsMissing(v) ==> Sign(v) == NA
    ensures v.Str? && !IsMissing(v) ==> Sign(v) == v.s
    ensures v.Num? ==> ReadsAsPercent(Sign(v), v.n)
  {
    if v.Num? {
      if v.n >= 0.0 {
        SignUp(v.n);
      } else {
        SignDown(v.n);
      }
    }
  }

  // ---------------------------------------------------------------------
  // The date a performance query looks at
  // ---------------------------------------------------------------------

  /** `date.weekday()` of a proleptic Gregorian ordinal: Monday is 0 (ordinal 1 was a Monday). */
  function Weekday(ordinal: int): (w: nat)
    ensures w < 7
  {
    (ordinal + 6) % 7
  }

  const Friday: nat := 4

  /** `(weekday - 4) % 7`, with 0 turned into a full week. */
  function DaysBack(w: nat): (k: nat)
    requires w < 7
  {
    var k := (w - Friday) % 7;
    if k == 0 then 7 else k
  }

  lemma DaysBackFriday(today: int)
    ensures var k := DaysBack(Weekday(today));
      1 <= k <= 7 && Weekday(today - k) == Friday &&
      forall day :: today - k < day < today ==> Weekday(day) != Friday
  {
    var w := Weekday(today);
    var q := (today + 6) / 7;
    assert today + 6 == 7 * q + w;
    forall day | today - 7 <= day <= today
      ensures Weekday(day) == (w - (today - day)) % 7
    {
      assert day + 6 == 7 * q + (w - (today - day));
    }
  }

  /**
   * The day whose movers a performance query asks for, given today's
   * ordinal: yesterday when the query says so, otherwise the last Friday
   * before today when it names Friday, otherwise today.
   */
  function PerfDate(query: string, today: int): (d: int)
    ensures Contains(Lower(query), "yesterday") ==> d == today - 1
    ensures !Contains(Lower(query), "yesterday") && Contains(Lower(query), "friday") ==>
      today - 7 <= d < today && Weekday(d) == Friday &&
      forall m :: d < m < today ==> Weekday(m) != Friday
    ensures !Contains(Lower(query), "yesterday") && !Contains(Lower(query), "friday") ==> d == today
  {
    var q := Lower(query);
    if Contains(q, "yesterday") then today - 1
    else if Contains(q, "friday") then
      DaysBackFriday(today);
      today - DaysBack(Weekday(today))
    else today
  }

  // ---------------------------------------------------------------------
  // Chart statistics and sampling
  // ---------------------------------------------------------------------

  datatype ChartStats = ChartStats(lo: real, hi: real, first: real, last: real, change: real)

  function MaxOf(xs: seq<real>): (m: real)
    requires xs != []
    ensures m in xs && forall i :: 0 <= i < |xs| ==> xs[i] <= m
  {
    if |xs| == 1 then xs[0]
    else
      var m := MaxOf(xs[1..]);
      assert forall i :: 1 <= i < |xs| ==> xs[i] == xs[1..][i - 1];
      if xs[0] >= m then xs[0] else m
  }

  function MinOf(xs: seq<real>): (m: real)
    requires xs != []
    ensures m in xs && forall i :: 0 <= i < |xs| ==> m <= xs[i]
  {
    if |xs| == 1 then xs[0]
    else
      var m := MinOf(xs[1..]);
      assert forall i :: 1 <= i < |xs| ==> xs[i] == xs[1..][i - 1];
      if xs[0] <= m then xs[0] else m
  }

  /**
   * The statistics of a non-empty series of closes: its range, its ends
   * and the percentage change from first to last; a first close of zero
   * raises ZeroDivisionError.
   */
  function Stats(closes: seq<real>): (r: Outcome<ChartStats>)
    requires closes != []
    ensures r.Raised? <==> closes[0] == 0.0
    ensures r.Ok? ==> r.value.first == closes[0] && r.value.last == closes[|closes| - 1]
    ensures r.Ok? ==> r.value.lo in closes && r.value.hi in closes
    ensures r.Ok? ==> forall i :: 0 <= i < |closes| ==> r.value.lo <= closes[i] <= r.value.hi
  {
    var first, last := closes[0], closes[|closes| - 1];
    if first == 0.0 then Raised
    else Ok(ChartStats(MinOf(closes), MaxOf(closes), first, last, (last - first) / first * 100.0))
  }

  lemma PercentBack(f: real, l: real)
    requires f != 0.0
    ensures l == f * (1.0 + ((l - f) / f * 100.0) / 100.0)
  {
    var q := (l - f) / f;
    assert q * f == l - f;
    assert (q * 100.0) / 100.0 == q;
    assert f * (1.0 + q) == f + f * q;
  }

  lemma PercentSign(f: real, l: real)
    requires f > 0.0
    ensures (l - f) / f * 100.0 >= 0.0 <==> l >= f
  {
    var q := (l - f) / f;
    assert q * f == l - f;
    if l >= f {
      QuotientNonNegative(l - f, f);
    } else {
      assert q < 0.0;
    }
  }

  /** The change is the percentage that takes the first close to the last. */
  lemma ChangeRecovers(closes: seq<real>)
    requires closes != [] && Stats(closes).Ok?
    ensures var s := Stats(closes).value;
      s.last == s.first * (1.0 + s.change / 100.0) &&
      (s.first > 0.0 ==> (s.change >= 0.0 <==> s.last >= s.first))
  {
    var f, l := closes[0], closes[|closes| - 1];
    PercentBack(f, l);
    if f > 0.0 {
      PercentSign(f, l);
    }
  }

  /** `max(1, n // 15)`. */
  function Stride(n: nat): (s: nat)
    ensures s >= 1
  {
    if n / 15 > 1 then n / 15 else 1
  }

  /** `xs[::step]`. */
  function Sample<T>(xs: seq<T>, step: nat): (r: seq<T>)
    requires step >= 1
    decreases |xs|
  {
    if xs == [] then [] else [xs[0]] + Sample(if |xs| <= step then [] else xs[step..], step)
  }

  lemma MulSucc(k: int, step: int)
    ensures (k + 1) * step == k * step + step
  {
  }

  /** There are just enough sample points to reach the end of the series. */
  lemma {:induction false} SampleSize<T>(xs: seq<T>, step: nat)
    requires step >= 1
    ensures var s := Sample(xs, step);
      (s == [] <==> xs == []) && (xs != [] ==> (|s| - 1) * step < |xs| <= |s| * step)
    decreases |xs|
  {
    if xs != [] {
      var rest := if |xs| <= step then [] else xs[step..];
      SampleSize(rest, step);
      var s' := Sample(rest, step);
      assert |Sample(xs, step)| == 1 + |s'|;
      if |xs| > step {
        MulSucc(|s'| - 1, step);
        MulSucc(|s'|, step);
      }
    }
  }

  /** Sample point k is the series' point k * step. */
  lemma {:induction false} SampleIndex<T>(xs: seq<T>, step: nat, k: nat)
    requires step >= 1 && k < |Sample(xs, step)|
    ensures k * step < |xs| && Sample(xs, step)[k] == xs[k * step]
    decreases k
  {
    var rest := if |xs| <= step then [] else xs[step..];
    var s' := Sample(rest, step);
    assert Sample(xs, step) == [xs[0]] + s';
    if k > 0 {
      assert Sample(xs, step)[k] == s'[k - 1];
      SampleIndex(rest, step, k - 1);
      var j := (k - 1) * step;
      MulSucc(k - 1, step);
      assert k * step == j + step;
      assert rest[j] == xs[j + step];
    } else {
      assert k * step == 0;
    }
  }

  /**
   * The sample holds every step-th point, from the first, and no other:
   * point k is `xs[k * step]`, and there are just enough points to reach
   * the end of the series.
   */
  lemma SampleAt<T>(xs: seq<T>, step: nat)
    requires step >= 1
    ensures var s := Sample(xs, step);
      (s == [] <==> xs == []) &&
      (xs != [] ==> (|s| - 1) * step < |xs| <= |s| * step) &&
      forall k :: 0 <= k < |s| ==> k * step < |xs| && s[k] == xs[k * step]
  {
    SampleSize(xs, step);
    forall k | 0 <= k < |Sample(xs, step)|
      ensures k * step < |xs| && Sample(xs, step)[k] == xs[k * step]
    {
      SampleIndex(xs, step, k);
    }
  }

  /** A series sampled at its own stride keeps at most 29 points. */
  lemma SampleBounded<T>(xs: seq<T>)
    ensures |Sample(xs, Stride(|xs|))| <= 29
  {
    var n, step := |xs|, Stride(|xs|);
    var s := Sample(xs, step);
    SampleSize(xs, step);
    if s != [] {
      if n / 15 > 1 {
        assert n < 15 * step + 15 <= 29 * step;
        MulCancel(|s| - 1, 29, step);
      } else {
        assert step == 1 && (|s| - 1) * 1 < n < 30;
      }
    }
  }

  lemma MulCancel(a: nat, b: nat, c: nat)
    requires c > 0 && a * c < b * c
    ensures a < b
  {
    if a >= b {
      MulMono(b, a, c);
    }
  }

  lemma MulMono(a: nat, b: nat, c: nat)
    requires a <= b
    ensures a * c <= b * c
  {
  }

  // ---------------------------------------------------------------------
  // Trigger words
  // ---------------------------------------------------------------------

  const HistoryTriggers: seq<string> :=
    ["missed", "past", "history", "trace", "yesterday", "since", "last time", "daha önce", "geçmiş"]
  const PerfTriggers: seq<string> :=
    ["best", "worst", "gainer", "loser", "performer", "anomaly", "en çok"]
  const TicketTriggers: seq<string> :=
    ["ticket", "bug", "issue", "report", "flagged", "hatalı", "sorun"]

  /** `any(w in query.lower() for w in words)`. */
  predicate Triggered(query: string, words: seq<string>)
  {
    ContainsAny(Lower(query), words)
  }

  /** A query triggers exactly when some trigger word occurs in it, whatever the case of its letters. */
  lemma TriggeredMeans(query: string, other: string, words: seq<string>)
    requires Lower(query) == Lower(other)
    ensures Triggered(query, words) <==> exists i :: 0 <= i < |words| && Contains(Lower(query), words[i])
    ensures Triggered(query, words) == Triggered(other, words)
  {
    ContainsAnyMeans(Lower(query), words);
  }

  /** Turkish capitals fold too: "DAHA ÖNCE" asks for the archive. */
  lemma HistoryTriggerTurkish()
    ensures Triggered("DAHA ÖNCE", HistoryTriggers)
  {
    var q := "daha önce";
    assert Lower("DAHA ÖNCE") == q;
    assert OccursAt(HistoryTriggers[7], q, 0);
    ContainsAnyMeans(q, HistoryTriggers);
  }

  /** "EN ÇOK" asks for the day's movers. */
  lemma PerfTriggerTurkish()
    ensures Triggered("EN ÇOK", PerfTriggers)
  {
    var q := "en çok";
    assert Lower("EN ÇOK") == q;
    assert OccursAt(PerfTriggers[6], q, 0);
    ContainsAnyMeans(q, PerfTriggers);
  }

  // ---------------------------------------------------------------------
  // Archived news search and de-duplication
  // ---------------------------------------------------------------------

  const SearchWordCount: nat := 3
  const MinWordLength: nat := 3

  /** The words of a query longer than three characters, in order. */
  function LongWords(ws: seq<string>): (r: seq<string>)
    ensures forall i :: 0 <= i < |r| ==> |r[i]| > MinWordLength && r[i] in ws
    ensures forall w :: w in ws && |w| > MinWordLength ==> w in r
  {
    if ws == [] then []
    else
      var rest := LongWords(ws[1..]);
      if |ws[0]| > MinWordLength then [ws[0]] + rest else rest
  }

  /** `[w for w in query.split() if len(w) > 3][:3]`. */
  function SearchWords(query: string): (r: seq<string>)
    ensures |r| <= SearchWordCount
    ensures forall i :: 0 <= i < |r| ==> |r[i]| > MinWordLength && r[i] in Split(query)
    ensures var long := LongWords(Split(query));
            |r| == (if |long| < SearchWordCount then |long| else SearchWordCount) && r == long[..|r|]
  {
    Sorting.Take(LongWords(Split(query)), SearchWordCount)
  }

  datatype Hit = Hit(title: string, timestamp: string)

  /** The archive hits for each search word, word after word; `search` is the archive's news search. */
  function ArchiveHits(words: seq<string>, search: string -> seq<Hit>): (r: seq<Hit>)
    ensures forall h :: h in r ==> exists i :: 0 <= i < |words| && h in search(words[i])
    ensures forall i, h :: 0 <= i < |words| && h in search(words[i]) ==> h in r
    ensures words != [] ==> |search(words[0])| <= |r| && r[..|search(words[0])|] == search(words[0])
  {
    if words == [] then []
    else
      var rest := ArchiveHits(words[1..], search);
      assert forall h :: h in rest ==> exists i :: 1 <= i < |words| && h in search(words[i]) by {
        forall h | h in rest
          ensures exists i :: 1 <= i < |words| && h in search(words[i])
        {
          var i :| 0 <= i < |words[1..]| && h in search(words[1..][i]);
          assert h in search(words[i + 1]);
        }
      }
      assert forall i, h :: 1 <= i < |words| && h in search(words[i]) ==> h in rest by {
        forall i, h | 1 <= i < |words| && h in search(words[i])
          ensures h in rest
        {
          assert words[1..][i - 1] == words[i];
        }
      }
      search(words[0]) + rest
  }

  /** A Python dict from titles to hits: its keys in insertion order and its entries. */
  datatype TitleDict = TitleDict(keys: seq<string>, entries: map<string, Hit>)

  ghost predicate WellFormed(d: TitleDict)
  {
    (forall i, k :: 0 <= i < k < |d.keys| ==> d.keys[i] != d.keys[k]) &&
    (forall t :: t in d.entries <==> t in d.keys)
  }

  /** `d[h['title']] = h`: a new title is appended to the keys, a known one keeps its place. */
  function Put(d: TitleDict, h: Hit): (r: TitleDict)
    requires WellFormed(d)
    ensures WellFormed(r)
  {
    if h.title in d.entries then TitleDict(d.keys, d.entries[h.title := h])
    else TitleDict(d.keys + [h.title], d.entries[h.title := h])
  }

  /** `{h['title']: h for h in hits}`. */
  function ByTitle(hits: seq<Hit>): (r: TitleDict)
    ensures WellFormed(r)
    decreases |hits|
  {
    if hits == [] then TitleDict([], map[])
    else Put(ByTitle(hits[..|hits| - 1]), hits[|hits| - 1])
  }

  /** `.values()`, in key order. */
  function DictValues(d: TitleDict): (r: seq<Hit>)
    requires WellFormed(d)
    ensures |r| == |d.keys| && forall i :: 0 <= i < |r| ==> r[i] == d.entries[d.keys[i]]
  {
    seq(|d.keys|, i requires 0 <= i < |d.keys| => d.entries[d.keys[i]])
  }

  /** `list({h['title']: h for h in hits}.values())`: one hit per title, each taken from the hits. */
  function Dedup(hits: seq<Hit>): (r: seq<Hit>)
    ensures forall i :: 0 <= i < |r| ==> r[i] in hits
    ensures hits != [] ==> r != []
  {
    ByTitleKeyed(hits);
    DictValues(ByTitle(hits))
  }

  /** Where the title `t` first occurs among the hits, or |hits| when it does not. */
  function FirstTitle(hits: seq<Hit>, t: string): (n: nat)
    ensures n <= |hits|
    ensures n < |hits| ==> hits[n].title == t
    ensures forall j :: 0 <= j < n ==> hits[j].title != t
  {
    if hits == [] then 0
    else if hits[0].title == t then 0
    else 1 + FirstTitle(hits[1..], t)
  }

  /** `hits[j]` is the last hit with its title. */
  predicate LastOfTitle(hits: seq<Hit>, j: int)
  {
    0 <= j < |hits| && forall k :: j < k < |hits| ==> hits[k].title != hits[j].title
  }

  ghost predicate Latest(hits: seq<Hit>, h: Hit)
  {
    exists j :: LastOfTitle(hits, j) && hits[j] == h
  }

  /** Every entry is filed under its own title and is the last hit with that title. */
  ghost predicate EntriesLatest(hits: seq<Hit>, d: TitleDict)
  {
    forall t :: t in d.entries ==> d.entries[t].title == t && Latest(hits, d.entries[t])
  }

  /** Every title among the hits has an entry, and every entry's title occurs among the hits. */
  ghost predicate Covers(hits: seq<Hit>, d: TitleDict)
  {
    (forall j :: 0 <= j < |hits| ==> hits[j].title in d.entries) &&
    (forall t :: t in d.entries ==> FirstTitle(hits, t) < |hits|)
  }

  /** The keys come in the order their titles first occur. */
  ghost predicate Ordered(hits: seq<Hit>, d: TitleDict)
  {
    forall i, k :: 0 <= i < k < |d.keys| ==> FirstTitle(hits, d.keys[i]) < FirstTitle(hits, d.keys[k])
  }

  lemma FirstTitleSnoc(hits: seq<Hit>, h: Hit, t: string)
    ensures FirstTitle(hits + [h], t) == if FirstTitle(hits, t) < |hits| then FirstTitle(hits, t)
      else if h.title == t then |hits| else |hits| + 1
  {
    var s := hits + [h];
    var n := FirstTitle(s, t);
    var m := FirstTitle(hits, t);
    assert forall j :: 0 <= j < |hits| ==> s[j] == hits[j];
    assert s[|hits|] == h;
    if m < |hits| {
      assert s[m].title == t;
    } else if h.title == t {
      assert n == |hits|;
    } else {
      assert n == |s|;
    }
  }

  lemma LatestSnoc(hits: seq<Hit>, h: Hit, e: Hit)
    requires Latest(hits, e) && e.title != h.title
    ensures Latest(hits + [h], e)
  {
    var j :| LastOfTitle(hits, j) && hits[j] == e;
    var s := hits + [h];
    assert s[j] == e;
    assert LastOfTitle(s, j);
  }

  lemma PutLatest(init: seq<Hit>, h: Hit, d: TitleDict)
    requires WellFormed(d) && EntriesLatest(init, d)
    ensures EntriesLatest(init + [h], Put(d, h))
  {
    var hits, r := init + [h], Put(d, h);
    assert hits[|init|] == h;
    assert LastOfTitle(hits, |init|);
    forall t | t in r.entries
      ensures r.entries[t].title == t && Latest(hits, r.entries[t])
    {
      if t != h.title {
        LatestSnoc(init, h, d.entries[t]);
      }
    }
  }

  lemma PutCovers(init: seq<Hit>, h: Hit, d: TitleDict)
    requires WellFormed(d) && Covers(init, d)
    ensures Covers(init + [h], Put(d, h))
  {
    var hits, r := init + [h], Put(d, h);
    forall j | 0 <= j < |hits|
      ensures hits[j].title in r.entries
    {
      if j < |init| {
        assert hits[j] == init[j];
      }
    }
    forall t | t in r.entries
      ensures FirstTitle(hits, t) < |hits|
    {
      FirstTitleSnoc(init, h, t);
    }
  }

  lemma PutOrdered(init: seq<Hit>, h: Hit, d: TitleDict)
    requires WellFormed(d) && Covers(init, d) && Ordered(init, d)
    ensures Ordered(init + [h], Put(d, h))
  {
    var hits, r := init + [h], Put(d, h);
    forall t | t in d.entries
      ensures FirstTitle(hits, t) == FirstTitle(init, t) < |init|
    {
      FirstTitleSnoc(init, h, t);
    }
    if h.title !in d.entries {
      FirstTitleSnoc(init, h, h.title);
      assert FirstTitle(init, h.title) == |init| by {
        assert forall j :: 0 <= j < |init| ==> init[j].title != h.title;
      }
    }
    forall i, k | 0 <= i < k < |r.keys|
      ensures FirstTitle(hits, r.keys[i]) < FirstTitle(hits, r.keys[k])
    {
      assert r.keys[i] == d.keys[i] && d.keys[i] in d.entries;
      if k < |d.keys| {
        assert r.keys[k] == d.keys[k] && d.keys[k] in d.entries;
      } else {
        assert r.keys[k] == h.title;
      }
    }
  }

  /** The dict built from the hits files each title's last hit, and keeps the titles in first-seen order. */
  lemma {:induction false} ByTitleKeyed(hits: seq<Hit>)
    ensures EntriesLatest(hits, ByTitle(hits)) && Covers(hits, ByTitle(hits)) && Ordered(hits, ByTitle(hits))
    decreases |hits|
  {
    if hits != [] {
      var init, h := hits[..|hits| - 1], hits[|hits| - 1];
      assert hits == init + [h];
      ByTitleKeyed(init);
      var d := ByTitle(init);
      PutLatest(init, h, d);
      PutCovers(init, h, d);
      PutOrdered(init, h, d);
    }
  }

  predicate HasTitle(r: seq<Hit>, t: string)
  {
    exists i :: 0 <= i < |r| && r[i].title == t
  }

  /**
   * The de-duplicated hits: one per title, each title of the hits appears,
   * each kept hit is the last hit with its title, and titles come in the
   * order of their first appearance.
   */
  lemma DedupKeepsLatest(hits: seq<Hit>)
    ensures var r := Dedup(hits);
      (forall i, k :: 0 <= i < k < |r| ==> r[i].title != r[k].title) &&
      (forall j :: 0 <= j < |hits| ==> HasTitle(r, hits[j].title)) &&
      (forall i :: 0 <= i < |r| ==> Latest(hits, r[i])) &&
      (forall i, k :: 0 <= i < k < |r| ==> FirstTitle(hits, r[i].title) < FirstTitle(hits, r[k].title))
  {
    var d := ByTitle(hits);
    ByTitleKeyed(hits);
    var r := DictValues(d);
    forall i | 0 <= i < |r|
      ensures r[i].title == d.keys[i] && Latest(hits, r[i])
    {
      assert d.keys[i] in d.entries;
    }
    forall j | 0 <= j < |hits|
      ensures HasTitle(r, hits[j].title)
    {
      var t := hits[j].title;
      assert t in d.keys;
      var i :| 0 <= i < |d.keys| && d.keys[i] == t;
      assert r[i].title == t;
    }
  }
}
