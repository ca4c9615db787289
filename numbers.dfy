// Decimal number syntax: Python's `float(text)` on plain decimal literals and
// JavaScript's `parseFloat`, which reads the longest numeric prefix.
module Numbers {
  import opened Wrappers
  import opened Text

  predicate AllDigits(s: string)
  {
    forall i :: 0 <= i < |s| ==> IsDigit(s[i])
  }

  function Pow10(n: nat): (r: nat)
    ensures r >= 1
  {
    if n == 0 then 1 else 10 * Pow10(n - 1)
  }

  /** The integer a run of decimal digits spells. */
  function DigitsValue(ds: string): (r: nat)
    requires AllDigits(ds)
    ensures r < Pow10(|ds|)
  {
    if ds == [] then 0
    else DigitsValue(ds[..|ds| - 1]) * 10 + (ds[|ds| - 1] as int - '0' as int)
  }

  /** The shortest decimal spelling of a natural number (no leading zeros). */
  function NatToDigits(n: nat): (r: string)
    ensures r != [] && AllDigits(r)
  {
    if n < 10 then [('0' as int + n) as char]
    else NatToDigits(n / 10) + [('0' as int + n % 10) as char]
  }

  lemma {:induction false} DigitsRoundTrip(n: nat)
    ensures DigitsValue(NatToDigits(n)) == n
  {
    var d := NatToDigits(n);
    if n >= 10 {
      DigitsRoundTrip(n / 10);
      assert d[..|d| - 1] == NatToDigits(n / 10);
    }
  }

  /** The index of the first `c` in `s`, or |s| when there is none. */
  function Find(s: string, c: char): (r: nat)
    ensures r <= |s|
    ensures r < |s| ==> s[r] == c
    ensures forall i :: 0 <= i < r ==> s[i] != c
  {
    if s == [] then 0
    else if s[0] == c then 0
    else 1 + Find(s[1..], c)
  }

  /** An unsigned decimal: digits with at most one '.', and at least one digit. */
  function ParseUnsigned(u: string): (r: Option<real>)
    ensures r.Some? ==> r.value >= 0.0
  {
    var k := Find(u, '.');
    if k == |u| then
      if u != [] && AllDigits(u) then Some(DigitsValue(u) as real) else None
    else
      var a := u[..k];
      var b := u[k + 1..];
      if |a| + |b| > 0 && AllDigits(a) && AllDigits(b) then
        Some(DecimalValue(a, b))
      else None
  }

  /**
   * `float(text)`: surrounding whitespace is ignored and an optional sign may
   * lead; anything else that is not a plain decimal makes Python raise
   * ValueError, which is `None` here.
   */
  function ParseFloat(s: string): (r: Option<real>)
  {
    ParseSigned(Strip(s))
  }

  /** An optional sign, then an unsigned decimal. */
  function ParseSigned(t: string): (r: Option<real>)
    ensures t != [] && t[0] == '-' ==> r == (match ParseUnsigned(t[1..]) case Some(v) => Some(-v) case None => None)
    ensures t != [] && t[0] == '+' ==> r == ParseUnsigned(t[1..])
    ensures t == [] || (t[0] != '-' && t[0] != '+') ==> r == ParseUnsigned(t)
  {
    if t != [] && t[0] == '-' then
      match ParseUnsigned(t[1..])
      case Some(v) => Some(-v)
      case None => None
    else if t != [] && t[0] == '+' then ParseUnsigned(t[1..])
    else ParseUnsigned(t)
  }

  lemma FindAfterDigits(a: string, rest: string)
    requires AllDigits(a) && rest != [] && rest[0] == '.'
    ensures Find(a + rest, '.') == |a|
  {
    var t := a + rest;
    var k := Find(t, '.');
    assert t[|a|] == '.';
  }

  /** Turning the decimal comma of `ints,fracs` into a point gives `ints.fracs`. */
  lemma CommaToPoint(ints: string, fracs: string)
    requires AllDigits(ints) && AllDigits(fracs)
    ensures ReplaceChar(ints + "," + fracs, ',', '.') == ints + "." + fracs
  {
    var s := ints + "," + fracs;
    var t := ints + "." + fracs;
    var r := ReplaceChar(s, ',', '.');
    forall i | 0 <= i < |s|
      ensures r[i] == t[i]
    {
      if i < |ints| {
        assert s[i] == ints[i] && t[i] == ints[i];
      } else if i > |ints| {
        assert s[i] == fracs[i - |ints| - 1] && t[i] == fracs[i - |ints| - 1];
      }
    }
  }

  /** The value of the decimal `a.b`. */
  function DecimalValue(a: string, b: string): (r: real)
    requires AllDigits(a) && AllDigits(b)
    ensures r >= DigitsValue(a) as real
  {
    var f := DigitsValue(b) as real;
    var d := Pow10(|b|) as real;
    assert f / d >= 0.0 by {
      QuotientNonNegative(f, d);
    }
    DigitsValue(a) as real + f / d
  }

  lemma QuotientNonNegative(x: real, y: real)
    requires x >= 0.0 && y > 0.0
    ensures x / y >= 0.0
  {
  }

  lemma ParseNat(n: nat)
    ensures ParseFloat(NatToDigits(n)) == Some(n as real)
  {
    var d := NatToDigits(n);
    DigitsRoundTrip(n);
    StripTrimmed(d);
    assert d[0] != '-' && d[0] != '+' by {
      assert IsDigit(d[0]);
    }
    assert Find(d, '.') == |d| by {
      assert forall i :: 0 <= i < |d| ==> d[i] != '.' by {
        forall i | 0 <= i < |d| ensures d[i] != '.' { assert IsDigit(d[i]); }
      }
    }
    assert ParseUnsigned(d) == Some(n as real);
  }

  /** Without sign or padding, `ints.fracs` is an unsigned decimal of that value. */
  lemma UnsignedDecimal(ints: string, fracs: string)
    requires AllDigits(ints) && AllDigits(fracs) && |ints| > 0
    ensures ParseUnsigned(ints + "." + fracs) == Some(DecimalValue(ints, fracs))
  {
    var t := ints + ("." + fracs);
    assert t == ints + "." + fracs;
    FindAfterDigits(ints, "." + fracs);
    assert t[..|ints|] == ints;
    assert t[|ints| + 1..] == fracs;
  }

  /** `ints.fracs` neither starts nor ends with whitespace, so stripping keeps it. */
  lemma StripDecimal(ints: string, fracs: string)
    requires AllDigits(ints) && AllDigits(fracs) && |ints| > 0
    ensures Strip(ints + "." + fracs) == ints + "." + fracs
  {
    var t := ints + "." + fracs;
    assert t[0] == ints[0];
    if |fracs| > 0 {
      assert t[|t| - 1] == fracs[|fracs| - 1];
    }
    StripTrimmed(t);
  }

  /** `ints + "." + fracs` reads back as the integer part plus the scaled fraction. */
  lemma ParseDecimalParts(ints: string, fracs: string)
    requires AllDigits(ints) && AllDigits(fracs) && |ints| > 0
    ensures ParseFloat(ints + "." + fracs) == Some(DecimalValue(ints, fracs))
  {
    var t := ints + "." + fracs;
    StripDecimal(ints, fracs);
    assert t[0] == ints[0];
    UnsignedDecimal(ints, fracs);
  }

  lemma ParseNegative(s: string)
    requires ParseUnsigned(s).Some? && !IsSpace(s[|s| - 1])
    ensures ParseFloat("-" + s) == Some(-ParseUnsigned(s).value)
  {
    var t := "-" + s;
    assert t[0] == '-' && t[|t| - 1] == s[|s| - 1];
    StripTrimmed(t);
    NegativeSign(s, t);
  }

  lemma NegativeSign(s: string, t: string)
    requires ParseUnsigned(s).Some? && t == "-" + s
    ensures ParseSigned(t) == Some(-ParseUnsigned(s).value)
  {
    assert t[1..] == s;
  }

  /** The leading run of decimal digits of `s`. */
  function DigitRun(s: string): (r: string)
    ensures StartsWith(s, r) && AllDigits(r)
    ensures |r| < |s| ==> !IsDigit(s[|r|])
  {
    s[..LeadingDigits(s)]
  }

  /** How many decimal digits open `s`. */
  function LeadingDigits(s: string): (n: nat)
    ensures n <= |s|
    ensures forall i :: 0 <= i < n ==> IsDigit(s[i])
    ensures n < |s| ==> !IsDigit(s[n])
  {
    if s != [] && IsDigit(s[0]) then
      var k := LeadingDigits(s[1..]);
      assert forall i :: 0 < i < 1 + k ==> s[i] == s[1..][i - 1];
      1 + k
    else 0
  }

  function UnsignedPrefix(u: string): (r: Option<real>)
    ensures r.Some? ==> r.value >= 0.0
  {
    var a := DigitRun(u);
    var rest := u[|a|..];
    var b := if rest != [] && rest[0] == '.' then DigitRun(rest[1..]) else "";
    if |a| + |b| == 0 then None
    else Some(DecimalValue(a, b))
  }

  /**
   * JavaScript `parseFloat(text)` on decimal text: leading whitespace is
   * skipped and the longest prefix of the form [sign] digits [. digits] is
   * read; `None` stands for NaN (no digit at all).
   */
  function JsParseFloat(s: string): (r: Option<real>)
  {
    var t := LStrip(s);
    if t != [] && t[0] == '-' then
      match UnsignedPrefix(t[1..])
      case Some(v) => Some(-v)
      case None => None
    else if t != [] && t[0] == '+' then UnsignedPrefix(t[1..])
    else UnsignedPrefix(t)
  }

  /** Trailing text after the number does not change what parseFloat reads. */
  lemma JsParseFloatIgnoresSuffix(n: nat, suffix: string)
    requires suffix == [] || (!IsDigit(suffix[0]) && suffix[0] != '.')
    ensures JsParseFloat(NatToDigits(n) + suffix) == Some(n as real)
  {
    JsParseFloatOfDigits(NatToDigits(n), suffix);
    DigitsRoundTrip(n);
  }

  lemma JsParseFloatOfDigits(d: string, suffix: string)
    requires AllDigits(d) && d != []
    requires suffix == [] || (!IsDigit(suffix[0]) && suffix[0] != '.')
    ensures JsParseFloat(d + suffix) == Some(DigitsValue(d) as real)
  {
    var t := d + suffix;
    assert t[0] == d[0];
    assert LStrip(t) == t;
    assert t[0] != '-' && t[0] != '+';
    UnsignedPrefixOfDigits(d, suffix);
  }

  lemma UnsignedPrefixOfDigits(d: string, suffix: string)
    requires AllDigits(d) && d != []
    requires suffix == [] || (!IsDigit(suffix[0]) && suffix[0] != '.')
    ensures UnsignedPrefix(d + suffix) == Some(DigitsValue(d) as real)
  {
    var t := d + suffix;
    DigitRunOf(d, suffix);
    assert t[|d|..] == suffix;
    assert DecimalValue(d, "") == DigitsValue(d) as real;
  }

  /** The digit run of digits followed by a non-digit is those digits. */
  lemma DigitRunOf(d: string, suffix: string)
    requires AllDigits(d)
    requires suffix == [] || !IsDigit(suffix[0])
    ensures DigitRun(d + suffix) == d
  {
    var t := d + suffix;
    assert forall i :: 0 <= i < |d| ==> t[i] == d[i];
    assert suffix != [] ==> t[|d|] == suffix[0];
    assert LeadingDigits(t) == |d|;
    assert t[..|d|] == d;
  }

  /** Python `float.is_integer()`. */
  predicate IsWhole(x: real)
  {
    x == x.Floor as real
  }

  /** A run of digits holds no separator. */
  lemma DigitsNoSeparator(s: string)
    requires AllDigits(s)
    ensures ',' !in s && '.' !in s
  {
    forall i | 0 <= i < |s|
      ensures s[i] != ',' && s[i] != '.'
    {
      assert IsDigit(s[i]);
    }
  }
}
