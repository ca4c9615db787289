// SmartScraper (engine/scraper.py): a price is read off a web page as the
// first acceptable number token within 200 characters after a keyword; a
// worldgovernmentbonds CDS page is redirected to the matching
// tradingeconomics page. Page downloads are a parameter `get` from URL to
// the page's visible text (None for a non-200 status or a failed request).
module Scraper {
  import opened Wrappers
  import opened Text
  import opened Numbers

  // ----- number tokens -------------------------------------------------------

  predicate IsSeparator(c: char)
  {
    c == '.' || c == ','
  }

  /** The length of the match at a digit: the digit run, extended through one separator when a digit follows it. */
  function TokenEnd(s: string): (m: nat)
    requires s != [] && IsDigit(s[0])
    ensures 1 <= m <= |s|
  {
    var n := LeadingDigits(s);
    if n + 1 < |s| && IsSeparator(s[n]) && IsDigit(s[n + 1]) then n + 1 + LeadingDigits(s[n + 1..])
    else n
  }

  /** The matches of `\d+[.,]\d+|\d+`, as `re.findall` returns them. */
  function Tokens(s: string): seq<string>
    decreases |s|
  {
    if s == [] then []
    else if !IsDigit(s[0]) then Tokens(s[1..])
    else [s[..TokenEnd(s)]] + Tokens(s[TokenEnd(s)..])
  }

  /** A token of that pattern: digits, at most one separator, and a digit at both ends. */
  predicate TokenShape(t: string)
  {
    t != [] && IsDigit(t[0]) && IsDigit(t[|t| - 1]) &&
    (forall i :: 0 <= i < |t| ==> IsDigit(t[i]) || IsSeparator(t[i])) &&
    (forall i, j :: 0 <= i < j < |t| && IsSeparator(t[i]) ==> !IsSeparator(t[j]))
  }

  lemma TokenEndShape(s: string)
    requires s != [] && IsDigit(s[0])
    ensures TokenShape(s[..TokenEnd(s)])
  {
    var n := LeadingDigits(s);
    if n + 1 < |s| && IsSeparator(s[n]) && IsDigit(s[n + 1]) {
      var m := n + 1 + LeadingDigits(s[n + 1..]);
      forall i | n < i < m
        ensures IsDigit(s[i])
      {
        assert s[i] == s[n + 1..][i - n - 1];
      }
    }
  }

  /** Every token has that shape. */
  lemma {:induction false} TokensShape(s: string)
    ensures forall k :: 0 <= k < |Tokens(s)| ==> TokenShape(Tokens(s)[k])
    decreases |s|
  {
    if s == [] {
    } else if !IsDigit(s[0]) {
      TokensShape(s[1..]);
    } else {
      TokenEndShape(s);
      TokensShape(s[TokenEnd(s)..]);
    }
  }

  /** So no token holds both a comma and a point: the two-separator branch of the normaliser is never taken. */
  lemma OneSeparator(t: string)
    requires TokenShape(t)
    ensures !(',' in t && '.' in t)
  {
    forall i, j | 0 <= i < |t| && 0 <= j < |t| && t[i] == ','
      ensures t[j] != '.'
    {
      if i < j {
        assert IsSeparator(t[i]);
      } else if j < i {
        assert !IsSeparator(t[i]) || !IsSeparator(t[j]);
      }
    }
  }

  /**
   * The cleaning of a raw token: with both separators the later one is the
   * decimal mark and the other is dropped; a lone comma is a decimal mark
   * when at most two characters follow the last comma, a thousands
   * separator otherwise.
   */
  function Normalize(raw: string): (r: string)
    ensures ',' !in r && |r| <= |raw|
    ensures ',' !in raw ==> r == raw
  {
    if ',' in raw && '.' in raw then
      if RFind(raw, ',') > RFind(raw, '.') then ReplaceChar(RemoveChar(raw, '.'), ',', '.')
      else RemoveChar(raw, ',')
    else if ',' in raw then
      if |raw| - RFind(raw, ',') <= 3 then ReplaceChar(raw, ',', '.') else RemoveChar(raw, ',')
    else raw
  }

  /** The last `c` of `a + [c] + b` is the one after `a` when `b` holds none. */
  lemma {:induction false} RFindAt(a: string, b: string, c: char)
    requires c !in b
    ensures RFind(a + [c] + b, c) == |a|
  {
    var t := a + [c] + b;
    var r := RFind(t, c);
    assert t[|a|] == c;
    assert r >= |a|;
    forall i | |a| < i < |t|
      ensures t[i] != c
    {
      assert t[i] == b[i - |a| - 1];
    }
    assert t[r] == c;
  }

  /** The value `float()` gives a run of digits. */
  lemma ParseDigits(d: string)
    requires d != [] && AllDigits(d)
    ensures ParseFloat(d) == Some(DigitsValue(d) as real)
  {
    StripTrimmed(d);
    DigitsNoSeparator(d);
    assert Find(d, '.') == |d|;
  }

  /** `ints,fracs` with at most two decimals reads as `ints.fracs`. */
  lemma NormalizeDecimalComma(ints: string, fracs: string)
    requires AllDigits(ints) && AllDigits(fracs) && |fracs| <= 2
    ensures Normalize(ints + "," + fracs) == ints + "." + fracs
  {
    var t := ints + "," + fracs;
    DigitsNoSeparator(ints);
    DigitsNoSeparator(fracs);
    assert t[|ints|] == ',';
    assert '.' !in t by {
      assert t == ints + [','] + fracs;
    }
    RFindAt(ints, fracs, ',');
    CommaToPoint(ints, fracs);
  }

  /** `ints,fracs` with three or more digits after the comma reads as the integer `intsfracs`. */
  lemma NormalizeThousandsComma(ints: string, fracs: string)
    requires AllDigits(ints) && AllDigits(fracs) && |fracs| >= 3
    ensures Normalize(ints + "," + fracs) == ints + fracs
  {
    var t := ints + "," + fracs;
    DigitsNoSeparator(ints);
    DigitsNoSeparator(fracs);
    assert t == ints + [','] + fracs;
    assert t[|ints|] == ',';
    RFindAt(ints, fracs, ',');
    RemoveCharOne(ints, fracs, ',');
  }

  /** European grouping `a.b,c` becomes `ab.c`. */
  lemma NormalizeEuropean(a: string, b: string, c: string)
    requires AllDigits(a) && AllDigits(b) && AllDigits(c)
    ensures Normalize(a + "." + b + "," + c) == a + b + "." + c
  {
    DigitsNoSeparator(a);
    DigitsNoSeparator(b);
    DigitsNoSeparator(c);
    var tail := b + "," + c;
    var t := a + "." + b + "," + c;
    assert t == (a + "." + b) + [','] + c;
    assert t == a + ['.'] + tail;
    assert '.' !in tail by {
      assert tail == b + [','] + c;
    }
    RFindAt(a + "." + b, c, ',');
    RFindAt(a, tail, '.');
    RemoveCharOne(a, tail, '.');
    assert a + tail == a + b + "," + c;
    CommaToPoint(a + b, c);
  }

  /** US grouping `a,b.c` becomes `ab.c`. */
  lemma NormalizeUs(a: string, b: string, c: string)
    requires AllDigits(a) && AllDigits(b) && AllDigits(c)
    ensures Normalize(a + "," + b + "." + c) == a + b + "." + c
  {
    DigitsNoSeparator(a);
    DigitsNoSeparator(b);
    DigitsNoSeparator(c);
    var tail := b + "." + c;
    var t := a + "," + b + "." + c;
    assert t == (a + "," + b) + ['.'] + c;
    assert t == a + [','] + tail;
    assert ',' !in tail by {
      assert tail == b + ['.'] + c;
    }
    RFindAt(a + "," + b, c, '.');
    RFindAt(a, tail, ',');
    RemoveCharOne(a, tail, ',');
    assert a + tail == a + b + "." + c;
  }

  /** What `float()` of the cleaned token gives; None stands for the ValueError the loop skips. */
  function TokenValue(raw: string): Option<real>
  {
    ParseFloat(Normalize(raw))
  }

  /**
   * The value of a token with one separator: a point, or a comma followed by
   * at most two digits, is a decimal mark; a comma followed by three or more
   * digits separates thousands.
   */
  lemma {:induction false} SeparatedTokenValue(a: string, sep: char, b: string)
    requires a != [] && b != [] && AllDigits(a) && AllDigits(b) && IsSeparator(sep)
    ensures sep == '.' || |b| <= 2 ==> TokenValue(a + [sep] + b) == Some(DecimalValue(a, b))
    ensures sep == ',' && |b| > 2 ==> TokenValue(a + [sep] + b) == Some(DigitsValue(a + b) as real)
  {
    DigitsNoSeparator(a);
    DigitsNoSeparator(b);
    if sep == '.' {
      assert a + [sep] + b == a + "." + b;
      assert ',' !in a + "." + b;
      ParseDecimalParts(a, b);
    } else if |b| <= 2 {
      assert a + [sep] + b == a + "," + b;
      NormalizeDecimalComma(a, b);
      ParseDecimalParts(a, b);
    } else {
      assert a + [sep] + b == a + "," + b;
      NormalizeThousandsComma(a, b);
      ParseDigits(a + b);
    }
  }

  /** Every token the pattern yields cleans to a number: `float()` never raises on them. */
  lemma TokenParses(t: string)
    requires TokenShape(t)
    ensures TokenValue(t).Some?
  {
    if k :| 0 <= k < |t| && IsSeparator(t[k]) {
      assert t == t[..k] + [t[k]] + t[k + 1..];
      SeparatedTokenValue(t[..k], t[k], t[k + 1..]);
    } else {
      assert AllDigits(t);
      DigitsNoSeparator(t);
      ParseDigits(t);
    }
  }

  // ----- the keyword-window scan ---------------------------------------------

  const WindowSize: nat := 200

  /** `text[start:start+200]`. */
  function Window(text: string, start: nat): (w: string)
    requires start <= |text|
    ensures |w| <= WindowSize
  {
    text[start .. if start + WindowSize < |text| then start + WindowSize else |text|]
  }

  /** The filters: not a year between 2020 and 2030, and not a whole number up to 30. */
  predicate Accepted(v: real)
  {
    !(2020.0 <= v <= 2030.0) && !(IsWhole(v) && v <= 30.0)
  }

  /** A token that `float()` accepts and whose value passes the filters. */
  predicate Passes(t: string)
  {
    TokenValue(t).Some? && Accepted(TokenValue(t).value)
  }

  /** `tokens[i]` passes and no earlier token does. */
  predicate FirstPassAt(tokens: seq<string>, i: int)
  {
    0 <= i < |tokens| && Passes(tokens[i]) && forall j :: 0 <= j < i ==> !Passes(tokens[j])
  }

  /** The first token that parses and passes the filters. */
  function FirstAccepted(tokens: seq<string>): Option<real>
  {
    if tokens == [] then None
    else
      var v := TokenValue(tokens[0]);
      if v.Some? && Accepted(v.value) then v else FirstAccepted(tokens[1..])
  }

  /** The answer is the value of the first token that passes; no answer means no token passes. */
  lemma {:induction false} FirstAcceptedIsFirst(tokens: seq<string>)
    ensures FirstAccepted(tokens).Some? ==>
              exists i :: FirstPassAt(tokens, i) && TokenValue(tokens[i]) == FirstAccepted(tokens)
    ensures FirstAccepted(tokens).None? ==> forall i :: 0 <= i < |tokens| ==> !Passes(tokens[i])
  {
    if tokens != [] {
      var rest := tokens[1..];
      FirstAcceptedIsFirst(rest);
      assert FirstAccepted(tokens) == if Passes(tokens[0]) then TokenValue(tokens[0]) else FirstAccepted(rest);
      if Passes(tokens[0]) {
        assert FirstPassAt(tokens, 0);
      } else if FirstAccepted(rest).Some? {
        var i :| FirstPassAt(rest, i) && TokenValue(rest[i]) == FirstAccepted(rest);
        assert tokens[i + 1] == rest[i];
        forall j | 0 <= j < i + 1
          ensures !Passes(tokens[j])
        {
          if j > 0 {
            assert tokens[j] == rest[j - 1];
          }
        }
        assert FirstPassAt(tokens, i + 1);
      } else {
        forall i | 0 <= i < |tokens|
          ensures !Passes(tokens[i])
        {
          if i > 0 {
            assert tokens[i] == rest[i - 1];
          }
        }
      }
    }
  }

  lemma QuoteDecimal()
    ensures DecimalValue("34", "50") == 34.5
  {
    assert "34"[..1] == "3" && "3"[..0] == "";
    assert "50"[..1] == "5" && "5"[..0] == "";
    assert Pow10(|"50"|) == 100;
  }

  lemma QuoteTokenValue()
    ensures TokenValue("34.50") == Some(34.5)
  {
    assert "34.50" == "34" + ['.'] + "50";
    SeparatedTokenValue("34", '.', "50");
    QuoteDecimal();
  }

  /** The quote of the USD/TRY page: of the tokens "34.50" and "34.20" after the keyword, the first is taken. */
  lemma QuoteExample()
    ensures FirstAccepted(["34.50", "34.20"]) == Some(34.5)
  {
    QuoteTokenValue();
    assert (34.5).Floor == 34;
    assert Accepted(34.5);
  }

  /** `re.finditer(re.escape(keyword), text, re.IGNORECASE)`: the starts of the non-overlapping matches from `from` on. */
  function MatchStarts(text: string, keyword: string, from: nat): (r: seq<nat>)
    ensures forall i :: 0 <= i < |r| ==> from <= r[i] <= |text|
    decreases |text| + 1 - from
  {
    if from > |text| then []
    else if OccursAt(Lower(keyword), Lower(text), from) then
      [from] + MatchStarts(text, keyword, from + (if |keyword| > 0 then |keyword| else 1))
    else MatchStarts(text, keyword, from + 1)
  }

  /** Every match start is a case-insensitive occurrence of the keyword. */
  lemma {:induction false} MatchStartsOccur(text: string, keyword: string, from: nat)
    ensures forall i :: 0 <= i < |MatchStarts(text, keyword, from)| ==>
              OccursAt(Lower(keyword), Lower(text), MatchStarts(text, keyword, from)[i])
    decreases |text| + 1 - from
  {
    if from <= |text| {
      var ms := MatchStarts(text, keyword, from);
      if OccursAt(Lower(keyword), Lower(text), from) {
        var next := from + (if |keyword| > 0 then |keyword| else 1);
        var rest := MatchStarts(text, keyword, next);
        assert ms == [from] + rest;
        MatchStartsOccur(text, keyword, next);
        AllOccurPrepend(Lower(keyword), Lower(text), from, rest);
      } else {
        assert ms == MatchStarts(text, keyword, from + 1);
        MatchStartsOccur(text, keyword, from + 1);
      }
    }
  }

  lemma AllOccurPrepend(sub: string, s: string, p: nat, ps: seq<nat>)
    requires OccursAt(sub, s, p)
    requires forall i :: 0 <= i < |ps| ==> OccursAt(sub, s, ps[i])
    ensures forall i :: 0 <= i < |[p] + ps| ==> OccursAt(sub, s, ([p] + ps)[i])
  {
    var qs := [p] + ps;
    forall i | 0 <= i < |qs|
      ensures OccursAt(sub, s, qs[i])
    {
      if i > 0 {
        assert qs[i] == ps[i - 1];
      }
    }
  }

  /** The first accepted token over the windows at `starts`, window by window. */
  function FirstInWindows(text: string, starts: seq<nat>): Option<real>
    requires forall i :: 0 <= i < |starts| ==> starts[i] <= |text|
  {
    if starts == [] then None
    else
      var v := FirstAccepted(Tokens(Window(text, starts[0])));
      if v.Some? then v else FirstInWindows(text, starts[1..])
  }

  /** The first accepted token near the keywords: keyword order, then match order, then token order. */
  function FirstNearKeywords(text: string, keywords: seq<string>): Option<real>
  {
    if keywords == [] then None
    else
      var v := FirstInWindows(text, MatchStarts(text, keywords[0], 0));
      if v.Some? then v else FirstNearKeywords(text, keywords[1..])
  }

  /** Whatever the scan returns passed the filters. */
  lemma {:induction false} NearKeywordsAccepted(text: string, keywords: seq<string>)
    ensures FirstNearKeywords(text, keywords).Some? ==> Accepted(FirstNearKeywords(text, keywords).value)
  {
    if keywords != [] {
      var starts := MatchStarts(text, keywords[0], 0);
      if FirstInWindows(text, starts).Some? {
        WindowsAccepted(text, starts);
      } else {
        NearKeywordsAccepted(text, keywords[1..]);
      }
    }
  }

  lemma {:induction false} WindowsAccepted(text: string, starts: seq<nat>)
    requires forall i :: 0 <= i < |starts| ==> starts[i] <= |text|
    ensures FirstInWindows(text, starts).Some? ==> Accepted(FirstInWindows(text, starts).value)
  {
    if starts != [] {
      var tokens := Tokens(Window(text, starts[0]));
      if FirstAccepted(tokens).Some? {
        FirstAcceptedIsFirst(tokens);
      } else {
        WindowsAccepted(text, starts[1..]);
      }
    }
  }

  /** The token loop of one window. */
  method ScanWindow(chunk: string) returns (r: Option<real>)
    ensures r == FirstAccepted(Tokens(chunk))
  {
    var nums := Tokens(chunk);
    for i := 0 to |nums|
      invariant FirstAccepted(nums[i..]) == FirstAccepted(nums)
    {
      assert nums[i..][1..] == nums[i + 1..];
      var val := TokenValue(nums[i]);
      if val.Some? {
        if 2020.0 <= val.value <= 2030.0 {
          continue;
        }
        if IsWhole(val.value) && val.value <= 30.0 {
          continue;
        }
        return val;
      }
    }
    return None;
  }

  /** The match loop of one keyword. */
  method ScanKeyword(text: string, keyword: string) returns (r: Option<real>)
    ensures r == FirstInWindows(text, MatchStarts(text, keyword, 0))
  {
    var matches := MatchStarts(text, keyword, 0);
    for i := 0 to |matches|
      invariant FirstInWindows(text, matches[i..]) == FirstInWindows(text, matches)
    {
      assert matches[i..][1..] == matches[i + 1..];
      r := ScanWindow(Window(text, matches[i]));
      if r.Some? {
        return;
      }
    }
    return None;
  }

  /** The keyword loop of fetch_price. */
  method ScanPage(text: string, keywords: seq<string>) returns (r: Option<real>)
    ensures r == FirstNearKeywords(text, keywords)
  {
    for i := 0 to |keywords|
      invariant FirstNearKeywords(text, keywords[i..]) == FirstNearKeywords(text, keywords)
    {
      assert keywords[i..][1..] == keywords[i + 1..];
      r := ScanKeyword(text, keywords[i]);
      if r.Some? {
        return;
      }
    }
    return None;
  }

  // ----- _smart_fallback_cds -------------------------------------------------

  /** `s.split(c)`: the pieces between the separators, empty ones included. */
  function SplitOn(s: string, c: char): (r: seq<string>)
    ensures |r| >= 1
    decreases |s|
  {
    var k := Find(s, c);
    if k == |s| then [s] else [s[..k]] + SplitOn(s[k + 1..], c)
  }

  /** Splitting and joining back with the separator restores the string, and no piece holds the separator. */
  lemma {:induction false} SplitOnJoin(s: string, c: char)
    ensures Join([c], SplitOn(s, c)) == s
    ensures forall i :: 0 <= i < |SplitOn(s, c)| ==> c !in SplitOn(s, c)[i]
    decreases |s|
  {
    var k := Find(s, c);
    if k < |s| {
      SplitOnJoin(s[k + 1..], c);
      var rest := SplitOn(s[k + 1..], c);
      assert SplitOn(s, c) == [s[..k]] + rest;
      assert SplitOn(s, c)[1..] == rest;
      assert s == s[..k] + [c] + s[k + 1..];
    }
  }

  /** `parts.index(x)` when present, else |parts|. */
  function IndexOf(parts: seq<string>, x: string): (r: nat)
    ensures r <= |parts|
    ensures r < |parts| ==> parts[r] == x
    ensures forall i :: 0 <= i < r ==> parts[i] != x
  {
    if parts == [] then 0
    else if parts[0] == x then 0
    else 1 + IndexOf(parts[1..], x)
  }

  const CdsSegment: string := "cds-historical-data"

  /** The country: the path segment right after "cds-historical-data" in a worldgovernmentbonds URL. */
  function Country(url: string): Option<string>
  {
    if !Contains(url, "worldgovernmentbonds.com") then None
    else
      var parts := SplitOn(url, '/');
      var idx := IndexOf(parts, CdsSegment);
      if idx + 1 < |parts| then Some(parts[idx + 1]) else None
  }

  /** `parts[i]` is the first "cds-historical-data" segment. */
  predicate FirstMarkerAt(parts: seq<string>, i: int)
  {
    0 <= i < |parts| && parts[i] == CdsSegment && forall j :: 0 <= j < i ==> parts[j] != CdsSegment
  }

  /** A found country is the segment after the first "cds-historical-data" segment of a worldgovernmentbonds URL, and holds no '/'. */
  lemma CountrySegment(url: string)
    requires Country(url).Some?
    ensures Contains(url, "worldgovernmentbonds.com")
    ensures exists i :: FirstMarkerAt(SplitOn(url, '/'), i) && i + 1 < |SplitOn(url, '/')| &&
              SplitOn(url, '/')[i + 1] == Country(url).value
    ensures '/' !in Country(url).value
  {
    var parts := SplitOn(url, '/');
    var idx := IndexOf(parts, CdsSegment);
    SplitOnJoin(url, '/');
    assert FirstMarkerAt(parts, idx);
  }

  /** The tradingeconomics page of the country's CDS. */
  function FallbackUrl(country: string): string
  {
    "https://tradingeconomics.com/" + country + "/credit-default-swap"
  }

  /** `\d{2,4}\.\d{2}` at the head of `s` with `k` integer digits. */
  predicate DecimalAt(s: string, k: nat)
  {
    |s| >= k + 3 && AllDigits(s[..k]) && s[k] == '.' && IsDigit(s[k + 1]) && IsDigit(s[k + 2])
  }

  predicate ThreeDigits(s: string)
  {
    |s| >= 3 && IsDigit(s[0]) && IsDigit(s[1]) && IsDigit(s[2])
  }

  /** The matches of `\d{2,4}\.\d{2}|\d{3}`: the greedy integer part backs off from four digits to two, then three bare digits. */
  function FallbackTokens(s: string): seq<string>
    decreases |s|
  {
    if s == [] then []
    else if DecimalAt(s, 4) then [s[..7]] + FallbackTokens(s[7..])
    else if DecimalAt(s, 3) then [s[..6]] + FallbackTokens(s[6..])
    else if DecimalAt(s, 2) then [s[..5]] + FallbackTokens(s[5..])
    else if ThreeDigits(s) then [s[..3]] + FallbackTokens(s[3..])
    else FallbackTokens(s[1..])
  }

  predicate InCdsRange(v: real)
  {
    50.0 <= v <= 5000.0
  }

  /** The first token whose value lies in the CDS range. */
  function FirstInRange(tokens: seq<string>): (r: Option<real>)
    ensures r.Some? ==> InCdsRange(r.value)
  {
    if tokens == [] then None
    else
      var v := ParseFloat(tokens[0]);
      if v.Some? && InCdsRange(v.value) then v else FirstInRange(tokens[1..])
  }

  /** What _smart_fallback_cds returns. */
  function FallbackCds(url: string, get: string -> Option<string>): (r: Option<real>)
  {
    var country := Country(url);
    if country.None? || country.value == "" then None
    else
      var page := get(FallbackUrl(country.value));
      if page.None? then None else FirstInRange(FallbackTokens(page.value))
  }

  /** The fallback answers only from the country's tradingeconomics page, and only with a value in [50, 5000]. */
  lemma FallbackInRange(url: string, get: string -> Option<string>)
    ensures FallbackCds(url, get).Some? ==>
              InCdsRange(FallbackCds(url, get).value) && Country(url).Some? && Country(url).value != "" &&
              get(FallbackUrl(Country(url).value)).Some?
  {
  }

  /** The token loop of the fallback page. */
  method ScanFallback(text: string) returns (r: Option<real>)
    ensures r == FirstInRange(FallbackTokens(text))
  {
    var nums := FallbackTokens(text);
    for i := 0 to |nums|
      invariant FirstInRange(nums[i..]) == FirstInRange(nums)
    {
      assert nums[i..][1..] == nums[i + 1..];
      var v := ParseFloat(nums[i]);
      if v.Some? && 50.0 <= v.value <= 5000.0 {
        return v;
      }
    }
    return None;
  }

  method SmartFallbackCds(url: string, get: string -> Option<string>) returns (r: Option<real>)
    ensures r == FallbackCds(url, get)
  {
    var country := Country(url);
    if country.None? || country.value == "" {
      return None;
    }
    var page := get(FallbackUrl(country.value));
    if page.None? {
      return None;
    }
    r := ScanFallback(page.value);
  }

  // ----- fetch_price ---------------------------------------------------------

  /** Whether the worldgovernmentbonds handler runs before the generic scrape. */
  predicate SmartFirst(url: string)
  {
    Contains(url, "worldgovernmentbonds.com") && Contains(url, "cds")
  }

  /** What fetch_price returns. */
  function Price(url: string, keywords: seq<string>, get: string -> Option<string>): (r: Option<real>)
    ensures r.Some? ==> r.value != 0.0
    ensures r.Some? && !SmartFirst(url) ==> get(url).Some?
  {
    FallbackInRange(url, get);
    var smart := if SmartFirst(url) then FallbackCds(url, get) else None;
    if smart.Some? && smart.value != 0.0 then smart
    else
      var page := get(url);
      if page.None? then None
      else
        var near := FirstNearKeywords(page.value, keywords);
        NearKeywordsAccepted(page.value, keywords);
        if near.Some? then near
        else if "cds" in keywords || Contains(url, "worldgovernmentbonds") then FallbackCds(url, get)
        else None
  }

  method FetchPrice(url: string, keywords: seq<string>, get: string -> Option<string>) returns (r: Option<real>)
    ensures r == Price(url, keywords, get)
  {
    if Contains(url, "worldgovernmentbonds.com") && Contains(url, "cds") {
      var smartVal := SmartFallbackCds(url, get);
      if smartVal.Some? && smartVal.value != 0.0 {
        return smartVal;
      }
    }
    var page := get(url);
    if page.None? {
      return None;
    }
    r := ScanPage(page.value, keywords);
    if r.Some? {
      return;
    }
    if "cds" in keywords || Contains(url, "worldgovernmentbonds") {
      r := SmartFallbackCds(url, get);
      return;
    }
    return None;
  }

  /** A price is either a filtered token near a keyword or a CDS value in [50, 5000]. */
  lemma PriceSound(url: string, keywords: seq<string>, get: string -> Option<string>)
    ensures Price(url, keywords, get).Some? ==>
              Accepted(Price(url, keywords, get).value) || InCdsRange(Price(url, keywords, get).value)
  {
    if get(url).Some? {
      NearKeywordsAccepted(get(url).value, keywords);
    }
  }

  /** The smart handler's answer always wins: a CDS value is never zero. */
  lemma SmartAnswerWins(url: string, keywords: seq<string>, get: string -> Option<string>)
    requires SmartFirst(url) && FallbackCds(url, get).Some?
    ensures Price(url, keywords, get) == FallbackCds(url, get)
  {
  }

  /** Without the fallback, an unreachable page gives nothing. */
  lemma PageDownGivesNothing(url: string, keywords: seq<string>, get: string -> Option<string>)
    requires !SmartFirst(url) && get(url).None?
    ensures Price(url, keywords, get).None?
  {
  }
}
