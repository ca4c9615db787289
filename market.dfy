// engine/market.py: the processing between the yfinance downloads and the
// dashboard: the percentage change, the chunked batch download, gram gold,
// the market snapshot's cache gate, the movers ranking and the distressed-
// stock screen. Downloads are parameters; rounding, string formatting and
// the pause between batches are not modelled.
module Market {
  import opened Wrappers
  import opened Values
  import opened Sorting
  import Cache

  // ----- change_pct ----------------------------------------------------------

  /** The percentage move from the previous close; a zero (falsy) previous close gives 0. */
  function ChangePct(price: real, prev: real): real
  {
    if prev != 0.0 then (price - prev) / prev * 100.0 else 0.0
  }

  /** Applying the change to the previous close gives back the price. */
  lemma ChangePctInverse(price: real, prev: real)
    ensures prev != 0.0 ==> prev + prev * ChangePct(price, prev) / 100.0 == price
    ensures prev == 0.0 ==> ChangePct(price, prev) == 0.0
  {
    if prev != 0.0 {
      var q := (price - prev) / prev;
      assert q * prev == price - prev;
      assert prev * (q * 100.0) / 100.0 == q * prev;
    }
  }

  /** With a positive previous close, the change is positive, zero or negative as the price is above, at or below it. */
  lemma ChangePctSign(price: real, prev: real)
    requires prev > 0.0
    ensures ChangePct(price, prev) > 0.0 <==> price > prev
    ensures ChangePct(price, prev) == 0.0 <==> price == prev
    ensures ChangePct(price, prev) < 0.0 <==> price < prev
  {
    var q := (price - prev) / prev;
    assert q * prev == price - prev;
    assert q > 0.0 <==> price - prev > 0.0;
    assert q < 0.0 <==> price - prev < 0.0;
  }

  // ----- _yf_download_batched ------------------------------------------------

  /** `xs[i : i + size]` for i = 0, size, 2·size, … below `len(xs)`. */
  function Chunks<T>(xs: seq<T>, size: nat): seq<seq<T>>
    requires size > 0
    decreases |xs|
  {
    if xs == [] then []
    else if |xs| <= size then [xs]
    else [xs[..size]] + Chunks(xs[size..], size)
  }

  function Concat<T>(xss: seq<seq<T>>): seq<T>
  {
    if xss == [] then [] else xss[0] + Concat(xss[1..])
  }

  /** The chunks are consecutive and cover the symbols exactly once, in order; each holds 1 .. size symbols, all but the last exactly size. */
  lemma {:induction false} ChunksCover<T>(xs: seq<T>, size: nat)
    requires size > 0
    ensures Concat(Chunks(xs, size)) == xs
    ensures forall i :: 0 <= i < |Chunks(xs, size)| ==> 0 < |Chunks(xs, size)[i]| <= size
    ensures forall i :: 0 <= i < |Chunks(xs, size)| - 1 ==> |Chunks(xs, size)[i]| == size
    decreases |xs|
  {
    if xs != [] && |xs| > size {
      ChunksCover(xs[size..], size);
      var c := Chunks(xs, size);
      assert c[1..] == Chunks(xs[size..], size);
      assert xs[..size] + xs[size..] == xs;
    } else if xs != [] {
      assert Concat([xs]) == xs + Concat([]);
    }
  }

  /** A symbol of any chunk is one of the symbols. */
  lemma {:induction false} ChunkElements<T>(xs: seq<T>, size: nat, i: nat, x: T)
    requires size > 0 && i < |Chunks(xs, size)| && x in Chunks(xs, size)[i]
    ensures x in xs
    decreases |xs|
  {
    if |xs| > size && i > 0 {
      assert Chunks(xs, size)[i] == Chunks(xs[size..], size)[i - 1];
      ChunkElements(xs[size..], size, i - 1, x);
    }
  }

  /** The frames a chunk's download contributes: none when the download raised. */
  function Part<F>(r: Outcome<map<string, F>>): map<string, F>
  {
    match r
    case Ok(m) => m
    case Raised => map[]
  }

  /** `merged.update(part)` over the chunks in order. */
  function MergeAll<F>(chunks: seq<seq<string>>, download: seq<string> -> Outcome<map<string, F>>): map<string, F>
  {
    if chunks == [] then map[]
    else MergeAll(chunks[..|chunks| - 1], download) + Part(download(chunks[|chunks| - 1]))
  }

  lemma MergeAllSnoc<F>(chunks: seq<seq<string>>, c: seq<string>, download: seq<string> -> Outcome<map<string, F>>)
    ensures MergeAll(chunks + [c], download) == MergeAll(chunks, download) + Part(download(c))
  {
    assert (chunks + [c])[..|chunks|] == chunks;
  }

  /** Every merged symbol was returned by the download of some chunk; the latest chunk that returned it wins. */
  lemma {:induction false} MergedFromChunks<F>(chunks: seq<seq<string>>, download: seq<string> -> Outcome<map<string, F>>, k: string)
    requires k in MergeAll(chunks, download)
    ensures exists i :: 0 <= i < |chunks| && download(chunks[i]).Ok? && k in download(chunks[i]).value
  {
    var init := chunks[..|chunks| - 1];
    var last := download(chunks[|chunks| - 1]);
    if last.Ok? && k in last.value {
    } else {
      MergedFromChunks(init, download, k);
      var i :| 0 <= i < |init| && download(init[i]).Ok? && k in download(init[i]).value;
      assert chunks[i] == init[i];
    }
  }

  /** When each download answers only for symbols of its chunk, as `_yf_get_ticker_dfs` does, every merged symbol is one of the requested ones. */
  lemma MergedWithinSymbols<F>(symbols: seq<string>, size: nat, download: seq<string> -> Outcome<map<string, F>>)
    requires size > 0
    requires forall c :: download(c).Ok? ==> forall k :: k in download(c).value ==> k in c
    ensures forall k :: k in MergeAll(Chunks(symbols, size), download) ==> k in symbols
  {
    forall k | k in MergeAll(Chunks(symbols, size), download)
      ensures k in symbols
    {
      MergedFromChunks(Chunks(symbols, size), download, k);
      var i :| 0 <= i < |Chunks(symbols, size)| && download(Chunks(symbols, size)[i]).Ok? &&
               k in download(Chunks(symbols, size)[i]).value;
      ChunkElements(symbols, size, i, k);
    }
  }

  /** One step of the chunk walk: the chunk at `i`, then the chunks after it. */
  lemma ChunksFrom<T>(xs: seq<T>, size: nat, i: nat)
    requires size > 0 && i < |xs|
    ensures Chunks(xs[i..], size)
         == [xs[i .. if i + size < |xs| then i + size else |xs|]]
            + (if i + size < |xs| then Chunks(xs[i + size..], size) else [])
  {
    if i + size < |xs| {
      assert xs[i..][..size] == xs[i .. i + size];
      assert xs[i..][size..] == xs[i + size..];
    } else {
      assert xs[i..|xs|] == xs[i..];
    }
  }

  /**
   * _yf_download_batched: download the symbols chunk by chunk and merge the
   * frames; a chunk whose download raises is skipped. A chunk size of 0
   * makes `range` raise ValueError.
   */
  method DownloadBatched<F>(symbols: seq<string>, chunkSize: nat, download: seq<string> -> Outcome<map<string, F>>)
    returns (r: Outcome<map<string, F>>)
    ensures r.Raised? <==> chunkSize == 0
    ensures chunkSize > 0 ==> r == Ok(MergeAll(Chunks(symbols, chunkSize), download))
  {
    if chunkSize == 0 {
      return Raised;
    }
    var merged: map<string, F> := map[];
    ghost var done: seq<seq<string>> := [];
    var i := 0;
    while i < |symbols|
      invariant 0 <= i
      invariant Chunks(symbols, chunkSize) == done + (if i < |symbols| then Chunks(symbols[i..], chunkSize) else [])
      invariant merged == MergeAll(done, download)
      decreases |symbols| - i
    {
      var chunk := symbols[i .. if i + chunkSize < |symbols| then i + chunkSize else |symbols|];
      ghost var later := if i + chunkSize < |symbols| then Chunks(symbols[i + chunkSize..], chunkSize) else [];
      assert Chunks(symbols[i..], chunkSize) == [chunk] + later by {
        ChunksFrom(symbols, chunkSize, i);
      }
      Assoc(done, [chunk], later);
      var part := download(chunk);
      if part.Ok? {
        merged := merged + part.value;
      }
      MergeAllSnoc(done, chunk, download);
      done := done + [chunk];
      i := i + chunkSize;
    }
    assert done + [] == done;
    return Ok(merged);
  }

  // ----- fetch_market_data: gram gold and the cache gate ---------------------

  /** One symbol's entry of the market snapshot; numbers that failed to arrive are Str("N/A"). */
  datatype Quote = Quote(symbol: string, name: string, price: Value, prevClose: Value, changePct: Value, source: string)

  const GramsPerTroyOunce: real := 31.1035
  const GramGoldKey: string := "GRAM_ALTIN"
  /** The display name as the source file spells it: "Altın" with its UTF-8 bytes read as Latin-1 ("Ä±" for "ı"). */
  const GramGoldName: string := "Gram Alt\U{C4}\U{B1}n"
  const UsdTryKey: string := "USDTRY=X"
  const GoldKey: string := "GC=F"
  const MarketTtl: real := 15.0

  /** _na_entry: the placeholder of a symbol that could not be fetched; the name falls back to the symbol. */
  function NaEntry(sym: string, names: map<string, string>): (q: Quote)
    ensures q.symbol == sym && q.source == NA
    ensures IsMissing(q.price) && IsMissing(q.prevClose) && IsMissing(q.changePct)
    ensures q.name == if sym in names then names[sym] else sym
  {
    Quote(sym, if sym in names then names[sym] else sym, Str(NA), Str(NA), Str(NA), NA)
  }

  /** `result.get(sym, {}).get("price")`. */
  function PriceOf(result: map<string, Quote>, sym: string): Value
  {
    if sym in result then result[sym].price else Null
  }

  /** Gram gold: troy-ounce gold in dollars times the lira rate, per gram; only when both prices are numbers. */
  function GramGold(usdtry: Value, goldOz: Value): Option<real>
  {
    if usdtry.Num? && goldOz.Num? then Some(goldOz.n * usdtry.n / GramsPerTroyOunce) else None
  }

  /** Gram gold is present exactly when both prices are numbers, and then 31.1035 grams of it cost one ounce in lira. */
  lemma GramGoldInverse(usdtry: Value, goldOz: Value)
    ensures GramGold(usdtry, goldOz).Some? <==> usdtry.Num? && goldOz.Num?
    ensures GramGold(usdtry, goldOz).Some? ==> GramGold(usdtry, goldOz).value * GramsPerTroyOunce == goldOz.n * usdtry.n
  {
  }

  /** The snapshot with the GRAM_ALTIN entry added when gram gold can be computed. */
  function WithGramGold(result: map<string, Quote>): (r: map<string, Quote>)
    ensures forall s :: s in result && s != GramGoldKey ==> s in r && r[s] == result[s]
    ensures forall s :: s in r ==> s in result || s == GramGoldKey
    ensures GramGold(PriceOf(result, UsdTryKey), PriceOf(result, GoldKey)).None? ==> r == result
    ensures GramGold(PriceOf(result, UsdTryKey), PriceOf(result, GoldKey)).Some? ==>
              GramGoldKey in r && r[GramGoldKey].source == "CALC" && r[GramGoldKey].name == GramGoldName &&
              r[GramGoldKey].price == Num(GramGold(PriceOf(result, UsdTryKey), PriceOf(result, GoldKey)).value)
  {
    match GramGold(PriceOf(result, UsdTryKey), PriceOf(result, GoldKey))
    case None => result
    case Some(g) =>
      var prev := if GramGoldKey in result then result[GramGoldKey].prevClose else Str(NA);
      result[GramGoldKey := Quote(GramGoldKey, GramGoldName, Num(g), prev, Num(0.0), "CALC")]
  }

  /** The snapshot is cached only when some entry's price is not "N/A". */
  predicate HasAnyPrice(result: map<string, Quote>)
  {
    exists s :: s in result && result[s].price != Str(NA)
  }

  /**
   * fetch_market_data after the per-symbol fetches (given as `quotes`): a
   * fresh cached snapshot wins; otherwise gram gold is added and the
   * snapshot is cached only when it holds some price.
   */
  method FetchMarketData(cache: Cache.TtlCache<map<string, Quote>>, now: real, quotes: map<string, Quote>)
    returns (result: map<string, Quote>)
    modifies cache
    ensures old(Cache.Lookup(cache.store, "market", MarketTtl, now)).Some? ==>
              result == old(Cache.Lookup(cache.store, "market", MarketTtl, now)).value && cache.store == old(cache.store)
    ensures old(Cache.Lookup(cache.store, "market", MarketTtl, now)).None? ==>
              result == WithGramGold(quotes) &&
              cache.store == if HasAnyPrice(result) then old(cache.store)["market" := Cache.Entry(result, now)] else old(cache.store)
  {
    var cached := cache.Get("market", MarketTtl, now);
    if cached.Some? {
      return cached.value;
    }
    result := WithGramGold(quotes);
    if HasAnyPrice(result) {
      cache.Set("market", result, now);
    }
  }

  /** A snapshot made only of "N/A" placeholders is never cached. */
  lemma AllUnavailableNotCached(quotes: map<string, Quote>, names: map<string, string>)
    requires forall s :: s in quotes ==> quotes[s] == NaEntry(s, names)
    ensures !HasAnyPrice(WithGramGold(quotes))
  {
    assert WithGramGold(quotes) == quotes;
  }

  /** Once gram gold can be computed, the snapshot always holds a price and is cached. */
  lemma GramGoldIsCached(quotes: map<string, Quote>)
    requires PriceOf(quotes, UsdTryKey).Num? && PriceOf(quotes, GoldKey).Num?
    ensures HasAnyPrice(WithGramGold(quotes))
  {
    assert WithGramGold(quotes)[GramGoldKey].price != Str(NA);
  }

  // ----- _calc_movers_for_index ---------------------------------------------

  /** One BIST stock's row; the formatted strings are not modelled. */
  datatype Stock = Stock(symbol: string, change: real, volume: int)

  datatype Movers = Movers(gainers: seq<Stock>, losers: seq<Stock>, mostTraded: seq<Stock>)

  const MoversLimit: nat := 10

  function StockChange(s: Stock): real
  {
    s.change
  }

  function StockVolume(s: Stock): int
  {
    s.volume
  }

  predicate Rising(s: Stock)
  {
    s.change > 0.0
  }

  predicate Falling(s: Stock)
  {
    s.change < 0.0
  }

  function ByChange(stocks: seq<Stock>): seq<Stock>
  {
    SortBy(stocks, StockChange, Flip(RealLess()))
  }

  /** The ten biggest risers, the ten biggest fallers and the ten most traded. */
  function MoversOf(stocks: seq<Stock>): (r: Movers)
    ensures |r.gainers| <= MoversLimit && |r.losers| <= MoversLimit
    ensures forall i :: 0 <= i < |r.gainers| ==> r.gainers[i].change > 0.0
    ensures forall i :: 0 <= i < |r.losers| ==> r.losers[i].change < 0.0
    ensures |r.mostTraded| == if |stocks| < MoversLimit then |stocks| else MoversLimit
  {
    Movers(Take(Where(ByChange(stocks), Rising), MoversLimit),
           Take(Where(Reversed(ByChange(stocks)), Falling), MoversLimit),
           Take(SortBy(stocks, StockVolume, Flip(IntLess())), MoversLimit))
  }

  /**
   * Gainers: at most ten rising stocks, biggest rise first; a rising stock
   * left out rose no more than any listed one, and only when ten are listed.
   */
  lemma GainersRanked(stocks: seq<Stock>)
    ensures var g := MoversOf(stocks).gainers;
            |g| <= MoversLimit &&
            (forall x :: x in g ==> x in stocks && x.change > 0.0) &&
            SortedBy(g, StockChange, Flip(RealLess())) &&
            forall s :: s in stocks && s.change > 0.0 && s !in g ==>
              |g| == MoversLimit && forall x :: x in g ==> x.change >= s.change
  {
    var p := Rising;
    var sorted := ByChange(stocks);
    var w := Where(sorted, p);
    var g := Take(w, MoversLimit);
    RealLessTotal();
    FlipStrictTotal(RealLess());
    SortBySorted(stocks, StockChange, Flip(RealLess()));
    WhereSorted(sorted, p, StockChange, Flip(RealLess()));
    forall x | x in g
      ensures x in stocks && x.change > 0.0
    {
      WhereMembers(sorted, p, x);
      SortByMembers(stocks, StockChange, Flip(RealLess()), x);
    }
    forall s | s in stocks && s.change > 0.0 && s !in g
      ensures |g| == MoversLimit && forall x :: x in g ==> x.change >= s.change
    {
      SortByMembers(stocks, StockChange, Flip(RealLess()), s);
      WhereMembers(sorted, p, s);
      TakeKeepsTop(w, StockChange, Flip(RealLess()), MoversLimit, s);
    }
  }

  /**
   * Losers: at most ten falling stocks, biggest fall first; a falling stock
   * left out fell no more than any listed one, and only when ten are listed.
   */
  lemma LosersRanked(stocks: seq<Stock>)
    ensures var l := MoversOf(stocks).losers;
            |l| <= MoversLimit &&
            (forall x :: x in l ==> x in stocks && x.change < 0.0) &&
            SortedBy(l, StockChange, RealLess()) &&
            forall s :: s in stocks && s.change < 0.0 && s !in l ==>
              |l| == MoversLimit && forall x :: x in l ==> x.change <= s.change
  {
    var p := Falling;
    var sorted := ByChange(stocks);
    var rev := Reversed(sorted);
    var w := Where(rev, p);
    var l := Take(w, MoversLimit);
    RealLessTotal();
    FlipStrictTotal(RealLess());
    SortBySorted(stocks, StockChange, Flip(RealLess()));
    ReversedSorted(sorted, StockChange, RealLess());
    WhereSorted(rev, p, StockChange, RealLess());
    forall x | x in l
      ensures x in stocks && x.change < 0.0
    {
      WhereMembers(rev, p, x);
      ReversedMembers(sorted, x);
      SortByMembers(stocks, StockChange, Flip(RealLess()), x);
    }
    forall s | s in stocks && s.change < 0.0 && s !in l
      ensures |l| == MoversLimit && forall x :: x in l ==> x.change <= s.change
    {
      SortByMembers(stocks, StockChange, Flip(RealLess()), s);
      ReversedMembers(sorted, s);
      WhereMembers(rev, p, s);
      TakeKeepsTop(w, StockChange, RealLess(), MoversLimit, s);
    }
  }

  /** Most traded: the first ten stocks by descending volume; a stock left out traded no more than any listed one. */
  lemma MostTradedRanked(stocks: seq<Stock>)
    ensures var t := MoversOf(stocks).mostTraded;
            |t| == (if |stocks| < MoversLimit then |stocks| else MoversLimit) &&
            (forall x :: x in t ==> x in stocks) &&
            SortedBy(t, StockVolume, Flip(IntLess())) &&
            forall s :: s in stocks && s !in t ==> forall x :: x in t ==> x.volume >= s.volume
  {
    var sorted := SortBy(stocks, StockVolume, Flip(IntLess()));
    var t := Take(sorted, MoversLimit);
    IntLessTotal();
    FlipStrictTotal(IntLess());
    SortBySorted(stocks, StockVolume, Flip(IntLess()));
    forall x | x in t
      ensures x in stocks
    {
      SortByMembers(stocks, StockVolume, Flip(IntLess()), x);
    }
    forall s | s in stocks && s !in t
      ensures forall x :: x in t ==> x.volume >= s.volume
    {
      SortByMembers(stocks, StockVolume, Flip(IntLess()), s);
      TakeKeepsTop(sorted, StockVolume, Flip(IntLess()), MoversLimit, s);
    }
  }

  // ----- fetch_distressed ----------------------------------------------------

  /** A stock's three-month high and last close; None when its frame was missing or empty. */
  datatype Window = Window(high: real, current: real)

  /** A distressed stock with its drawdown in percent. */
  datatype Drop = Drop(symbol: string, current: real, high: real, drawdown: real)

  const DistressedCut: real := -20.0
  const DistressedLimit: nat := 15

  /** The stock's entry when its high is positive and it trades more than 20% below it. */
  function DropOf(symbol: string, w: Window): Option<Drop>
  {
    if w.high > 0.0 then
      var drawdown := (w.current - w.high) / w.high * 100.0;
      if drawdown < DistressedCut then Some(Drop(symbol, w.current, w.high, drawdown)) else None
    else None
  }

  /** A stock is distressed exactly when its high is positive and its close is below 80% of the high. */
  lemma DropThreshold(symbol: string, w: Window)
    ensures DropOf(symbol, w).Some? <==> w.high > 0.0 && w.current < 0.8 * w.high
    ensures DropOf(symbol, w).Some? ==>
              DropOf(symbol, w).value.drawdown < DistressedCut && DropOf(symbol, w).value.symbol == symbol
  {
    if w.high > 0.0 {
      var q := (w.current - w.high) / w.high;
      assert q * w.high == w.current - w.high;
      assert q * 100.0 < -20.0 <==> q < -0.2;
      assert q < -0.2 <==> q * w.high < -0.2 * w.high;
    }
  }

  function DropValue(d: Drop): real
  {
    d.drawdown
  }

  /** The distressed stocks in ticker order. */
  function Drops(rows: seq<(string, Option<Window>)>): (r: seq<Drop>)
    ensures |r| <= |rows|
  {
    if rows == [] then []
    else
      var row := rows[|rows| - 1];
      Drops(rows[..|rows| - 1]) + (if row.1.Some? && DropOf(row.0, row.1.value).Some? then [DropOf(row.0, row.1.value).value] else [])
  }

  /** Every distressed entry comes from one of the rows and lies below the cut. */
  lemma {:induction false} DropsFromRows(rows: seq<(string, Option<Window>)>, d: Drop)
    requires d in Drops(rows)
    ensures d.drawdown < DistressedCut
    ensures exists i :: 0 <= i < |rows| && rows[i].1.Some? && DropOf(rows[i].0, rows[i].1.value) == Some(d)
  {
    var init := rows[..|rows| - 1];
    var row := rows[|rows| - 1];
    if d in Drops(init) {
      DropsFromRows(init, d);
      var i :| 0 <= i < |init| && init[i].1.Some? && DropOf(init[i].0, init[i].1.value) == Some(d);
      assert rows[i] == init[i];
    } else {
      DropThreshold(row.0, row.1.value);
    }
  }

  /** Every row whose stock qualifies is listed. */
  lemma {:induction false} DropsComplete(rows: seq<(string, Option<Window>)>, i: nat)
    requires i < |rows| && rows[i].1.Some? && DropOf(rows[i].0, rows[i].1.value).Some?
    ensures DropOf(rows[i].0, rows[i].1.value).value in Drops(rows)
  {
    var init := rows[..|rows| - 1];
    if i < |rows| - 1 {
      assert rows[i] == init[i];
      DropsComplete(init, i);
    }
  }

  /** The screening loop over the tickers. */
  method ScreenDistressed(rows: seq<(string, Option<Window>)>) returns (distressed: seq<Drop>)
    ensures distressed == Drops(rows)
  {
    distressed := [];
    for i := 0 to |rows|
      invariant distressed == Drops(rows[..i])
    {
      var (symbol, window) := rows[i];
      assert rows[..i + 1][..i] == rows[..i];
      if window.Some? && window.value.high > 0.0 {
        var drawdown := (window.value.current - window.value.high) / window.value.high * 100.0;
        if drawdown < -20.0 {
          distressed := distressed + [Drop(symbol, window.value.current, window.value.high, drawdown)];
        }
      }
    }
    assert rows[..|rows|] == rows;
  }

  /** fetch_distressed after the downloads: the screen, sorted by drawdown (worst first), cut at fifteen. */
  method FetchDistressed(rows: seq<(string, Option<Window>)>) returns (result: seq<Drop>)
    ensures result == Take(SortBy(Drops(rows), DropValue, RealLess()), DistressedLimit)
  {
    var distressed := ScreenDistressed(rows);
    distressed := SortBy(distressed, DropValue, RealLess());
    result := Take(distressed, DistressedLimit);
  }

  /**
   * The answer holds at most fifteen distressed stocks of the rows, worst
   * drawdown first; a qualifying stock left out fell no more than any listed
   * one, and only when fifteen are listed.
   */
  lemma DistressedRanked(rows: seq<(string, Option<Window>)>)
    ensures var r := Take(SortBy(Drops(rows), DropValue, RealLess()), DistressedLimit);
            |r| <= DistressedLimit &&
            SortedBy(r, DropValue, RealLess()) &&
            (forall d :: d in r ==> d.drawdown < DistressedCut) &&
            forall i :: 0 <= i < |rows| && rows[i].1.Some? && DropOf(rows[i].0, rows[i].1.value).Some? &&
                        DropOf(rows[i].0, rows[i].1.value).value !in r ==>
              |r| == DistressedLimit && forall d :: d in r ==> d.drawdown <= DropOf(rows[i].0, rows[i].1.value).value.drawdown
  {
    DistressedListed(rows);
    DistressedLeftOut(rows);
  }

  lemma DistressedListed(rows: seq<(string, Option<Window>)>)
    ensures var r := Take(SortBy(Drops(rows), DropValue, RealLess()), DistressedLimit);
            |r| <= DistressedLimit &&
            SortedBy(r, DropValue, RealLess()) &&
            (forall d :: d in r ==> d.drawdown < DistressedCut)
  {
    var drops := Drops(rows);
    var r := Take(SortBy(drops, DropValue, RealLess()), DistressedLimit);
    RealLessTotal();
    SortBySorted(drops, DropValue, RealLess());
    forall d | d in r
      ensures d.drawdown < DistressedCut
    {
      SortByMembers(drops, DropValue, RealLess(), d);
      DropsFromRows(rows, d);
    }
  }

  lemma DistressedLeftOut(rows: seq<(string, Option<Window>)>)
    ensures var r := Take(SortBy(Drops(rows), DropValue, RealLess()), DistressedLimit);
            forall i :: 0 <= i < |rows| && rows[i].1.Some? && DropOf(rows[i].0, rows[i].1.value).Some? &&
                        DropOf(rows[i].0, rows[i].1.value).value !in r ==>
              |r| == DistressedLimit && forall d :: d in r ==> d.drawdown <= DropOf(rows[i].0, rows[i].1.value).value.drawdown
  {
    var drops := Drops(rows);
    var sorted := SortBy(drops, DropValue, RealLess());
    var r := Take(sorted, DistressedLimit);
    RealLessTotal();
    SortBySorted(drops, DropValue, RealLess());
    forall i | 0 <= i < |rows| && rows[i].1.Some? && DropOf(rows[i].0, rows[i].1.value).Some? &&
               DropOf(rows[i].0, rows[i].1.value).value !in r
      ensures |r| == DistressedLimit && forall d :: d in r ==> d.drawdown <= DropOf(rows[i].0, rows[i].1.value).value.drawdown
    {
      var x := DropOf(rows[i].0, rows[i].1.value).value;
      DropsComplete(rows, i);
      SortByMembers(drops, DropValue, RealLess(), x);
      TakeKeepsTop(sorted, DropValue, RealLess(), DistressedLimit, x);
    }
  }
}
