// String helpers with the meaning Python's `str` methods and JavaScript's
// `String` methods give them on the inputs the engine handles. Case mapping
// covers ASCII plus the Turkish letters Ç Ğ Ö Ş Ü (and ı upwards); other
// letters are left as they are. Whitespace is ASCII whitespace.
module Text {

  predicate IsSpace(c: char)
  {
    c == ' ' || c == '\t' || c == '\n' || c == '\r' || c == '\U{000B}' || c == '\U{000C}'
  }

  predicate IsDigit(c: char)
  {
    '0' <= c <= '9'
  }

  /** The capitals `LowerChar` folds: ASCII and the Turkish Ç Ğ Ö Ş Ü. */
  predicate IsUpper(c: char)
  {
    'A' <= c <= 'Z' || c == 'Ç' || c == 'Ğ' || c == 'Ö' || c == 'Ş' || c == 'Ü'
  }

  function LowerChar(c: char): (r: char)
    ensures !IsUpper(r)
    ensures !IsUpper(c) ==> r == c
  {
    if 'A' <= c <= 'Z' then (c as int + 32) as char
    else if c == 'Ç' then 'ç'
    else if c == 'Ğ' then 'ğ'
    else if c == 'Ö' then 'ö'
    else if c == 'Ş' then 'ş'
    else if c == 'Ü' then 'ü'
    else c
  }

  function UpperChar(c: char): char
  {
    if 'a' <= c <= 'z' then (c as int - 32) as char
    else if c == 'ö' then 'Ö'
    else if c == 'ü' then 'Ü'
    else if c == 'ç' then 'Ç'
    else if c == 'ş' then 'Ş'
    else if c == 'ğ' then 'Ğ'
    else if c == 'ı' then 'I'
    else c
  }

  /** `s.lower()`: same length, each character mapped on its own. */
  function Lower(s: string): (r: string)
    ensures |r| == |s|
    ensures forall i :: 0 <= i < |s| ==> r[i] == LowerChar(s[i])
  {
    if s == [] then [] else [LowerChar(s[0])] + Lower(s[1..])
  }

  /** `s.upper()`: same length, each character mapped on its own. */
  function Upper(s: string): (r: string)
    ensures |r| == |s|
    ensures forall i :: 0 <= i < |s| ==> r[i] == UpperChar(s[i])
  {
    if s == [] then [] else [UpperChar(s[0])] + Upper(s[1..])
  }

  /** Lower-casing a string with no upper-case letter changes nothing. */
  lemma LowerFixed(s: string)
    requires forall i :: 0 <= i < |s| ==> !IsUpper(s[i])
    ensures Lower(s) == s
  {
  }

  lemma LowerIdempotent(s: string)
    ensures Lower(Lower(s)) == Lower(s)
  {
  }

  predicate StartsWith(s: string, prefix: string)
  {
    |prefix| <= |s| && s[..|prefix|] == prefix
  }

  predicate EndsWith(s: string, suffix: string)
  {
    |suffix| <= |s| && s[|s| - |suffix|..] == suffix
  }

  /** `sub in s`: `sub` occurs in `s` at some position. */
  predicate OccursAt(sub: string, s: string, i: int)
  {
    0 <= i && i + |sub| <= |s| && s[i..i + |sub|] == sub
  }

  function Contains(s: string, sub: string): (r: bool)
    ensures r <==> exists i :: OccursAt(sub, s, i)
    decreases |s|
  {
    if StartsWith(s, sub) then
      assert OccursAt(sub, s, 0);
      true
    else if |s| == 0 then
      assert forall i :: !OccursAt(sub, s, i);
      false
    else
      var rest := Contains(s[1..], sub);
      if rest then
        var j :| OccursAt(sub, s[1..], j);
        assert OccursAt(sub, s, j + 1) by {
          assert s[j + 1..j + 1 + |sub|] == s[1..][j..j + |sub|];
        }
        true
      else
        assert forall i :: !OccursAt(sub, s, i) by {
          forall i | OccursAt(sub, s, i)
            ensures false
          {
            if i > 0 {
              assert s[1..][i - 1..i - 1 + |sub|] == s[i..i + |sub|];
              assert OccursAt(sub, s[1..], i - 1);
            }
          }
        }
        false
  }

  /** `any(sub in s for sub in subs)`. */
  predicate ContainsAny(s: string, subs: seq<string>)
  {
    subs != [] && (Contains(s, subs[0]) || ContainsAny(s, subs[1..]))
  }

  lemma {:induction false} ContainsAnyMeans(s: string, subs: seq<string>)
    ensures ContainsAny(s, subs) <==> exists i :: 0 <= i < |subs| && Contains(s, subs[i])
  {
    if subs != [] {
      ContainsAnyMeans(s, subs[1..]);
      assert forall i :: 1 <= i < |subs| ==> subs[i] == subs[1..][i - 1];
    }
  }

  lemma ContainsEmpty(s: string)
    ensures Contains(s, "")
  {
    assert OccursAt("", s, 0);
  }

  lemma ContainsSelfConcat(a: string, b: string, c: string)
    ensures Contains(a + b + c, b)
  {
    assert (a + b + c)[|a|..|a| + |b|] == b;
    assert OccursAt(b, a + b + c, |a|);
  }

  /** How many characters satisfying `IsSpace` open `s`. */
  function LeadingSpaces(s: string): (n: nat)
    ensures n <= |s|
    ensures forall i :: 0 <= i < n ==> IsSpace(s[i])
    ensures n < |s| ==> !IsSpace(s[n])
  {
    if s != [] && IsSpace(s[0]) then
      var k := LeadingSpaces(s[1..]);
      assert forall i :: 0 < i < 1 + k ==> s[i] == s[1..][i - 1];
      1 + k
    else 0
  }

  /** How many characters satisfying `IsSpace` close `s`. */
  function TrailingSpaces(s: string): (n: nat)
    ensures n <= |s|
    ensures forall i :: |s| - n <= i < |s| ==> IsSpace(s[i])
    ensures n < |s| ==> !IsSpace(s[|s| - n - 1])
  {
    if s != [] && IsSpace(s[|s| - 1]) then 1 + TrailingSpaces(s[..|s| - 1]) else 0
  }

  /** `s.lstrip()` / `s.strip()` over ASCII whitespace. */
  function LStrip(s: string): (r: string)
    ensures |r| <= |s| && r == s[|s| - |r|..]
    ensures forall i :: 0 <= i < |s| - |r| ==> IsSpace(s[i])
    ensures r != [] ==> !IsSpace(r[0])
  {
    s[LeadingSpaces(s)..]
  }

  function RStrip(s: string): (r: string)
    ensures |r| <= |s| && r == s[..|r|]
    ensures forall i :: |r| <= i < |s| ==> IsSpace(s[i])
    ensures r != [] ==> !IsSpace(r[|r| - 1])
  {
    s[..|s| - TrailingSpaces(s)]
  }

  function Strip(s: string): (r: string)
    ensures r != [] ==> !IsSpace(r[0]) && !IsSpace(r[|r| - 1])
    ensures exists i :: OccursAt(r, s, i)
  {
    var l := LStrip(s);
    var r := RStrip(l);
    assert OccursAt(r, s, |s| - |l|);
    r
  }

  /** Stripping a string that neither starts nor ends with whitespace changes nothing. */
  lemma StripTrimmed(s: string)
    requires s == [] || (!IsSpace(s[0]) && !IsSpace(s[|s| - 1]))
    ensures Strip(s) == s
  {
    assert LStrip(s) == s;
    assert RStrip(s) == s;
  }

  /** How many copies of `c` open `s`. */
  function LeadingCopies(s: string, c: char): (n: nat)
    ensures n <= |s|
    ensures forall i :: 0 <= i < n ==> s[i] == c
    ensures n < |s| ==> s[n] != c
  {
    if s != [] && s[0] == c then
      var k := LeadingCopies(s[1..], c);
      assert forall i :: 0 < i < 1 + k ==> s[i] == s[1..][i - 1];
      1 + k
    else 0
  }

  /** `s.lstrip(c)`: every leading copy of `c` is removed. */
  function LStripChar(s: string, c: char): (r: string)
    ensures |r| <= |s| && r == s[|s| - |r|..]
    ensures forall i :: 0 <= i < |s| - |r| ==> s[i] == c
    ensures r != [] ==> r[0] != c
  {
    s[LeadingCopies(s, c)..]
  }

  /** `s.replace(a, b)` for single characters. */
  function ReplaceChar(s: string, a: char, b: char): (r: string)
    ensures |r| == |s|
    ensures forall i :: 0 <= i < |s| ==> r[i] == (if s[i] == a then b else s[i])
  {
    if s == [] then [] else [if s[0] == a then b else s[0]] + ReplaceChar(s[1..], a, b)
  }

  /** `s.replace(a, "")`: the characters of `s` other than `a`, in order. */
  function RemoveChar(s: string, a: char): (r: string)
    ensures |r| <= |s|
    ensures a !in r
    ensures forall c :: c != a ==> multiset(r)[c] == multiset(s)[c]
  {
    if s == [] then []
    else
      assert s == [s[0]] + s[1..];
      if s[0] == a then RemoveChar(s[1..], a) else [s[0]] + RemoveChar(s[1..], a)
  }

  /** Removing a character distributes over concatenation. */
  lemma {:induction false} RemoveCharAppend(x: string, y: string, c: char)
    ensures RemoveChar(x + y, c) == RemoveChar(x, c) + RemoveChar(y, c)
    decreases |x|
  {
    if x != [] {
      assert (x + y)[1..] == x[1..] + y;
      RemoveCharAppend(x[1..], y, c);
    } else {
      assert x + y == y;
    }
  }

  /** A string without the character is left as it is. */
  lemma {:induction false} RemoveCharAbsent(s: string, c: char)
    requires c !in s
    ensures RemoveChar(s, c) == s
    decreases |s|
  {
    if s != [] {
      RemoveCharAbsent(s[1..], c);
      assert s == [s[0]] + s[1..];
    }
  }

  /** Dropping the one `c` of `x + [c] + y` leaves `x + y`. */
  lemma RemoveCharOne(x: string, y: string, c: char)
    requires c !in x && c !in y
    ensures RemoveChar(x + [c] + y, c) == x + y
  {
    var one: string := [c];
    assert RemoveChar(one, c) == [] by {
      assert one[1..] == [];
    }
    RemoveCharAbsent(x, c);
    RemoveCharAbsent(y, c);
    RemoveCharAppend(x, one, c);
    assert RemoveChar(x + one, c) == x;
    RemoveCharAppend(x + one, y, c);
  }

  /** `s.rfind(c)`: the last index holding `c`, or -1. */
  function RFind(s: string, c: char): (r: int)
    ensures -1 <= r < |s|
    ensures r >= 0 ==> s[r] == c
    ensures forall i :: r < i < |s| ==> s[i] != c
  {
    if s == [] then -1
    else if s[|s| - 1] == c then |s| - 1
    else RFind(s[..|s| - 1], c)
  }

  /** `sep.join(parts)`. */
  function Join(sep: string, parts: seq<string>): string
  {
    if parts == [] then ""
    else if |parts| == 1 then parts[0]
    else parts[0] + sep + Join(sep, parts[1..])
  }

  /** The run of non-space characters at the head of `s`. */
  function Word(s: string): (r: string)
    ensures StartsWith(s, r)
    ensures forall i :: 0 <= i < |r| ==> !IsSpace(r[i])
    ensures |r| < |s| ==> IsSpace(s[|r|])
  {
    if s == [] || IsSpace(s[0]) then "" else [s[0]] + Word(s[1..])
  }

  /** A non-empty run of non-whitespace characters. */
  predicate IsWord(w: string)
  {
    w != [] && forall i :: 0 <= i < |w| ==> !IsSpace(w[i])
  }

  /**
   * `s.split()` with no separator: the maximal runs of non-whitespace
   * characters, in order; no run is empty.
   */
  function Split(s: string): seq<string>
    decreases |s|
  {
    var t := LStrip(s);
    if t == [] then []
    else
      var w := Word(t);
      assert w != [] by {
        assert !IsSpace(t[0]);
      }
      [w] + Split(t[|w|..])
  }

  /** Every piece `Split` returns is a word: non-empty, with no whitespace. */
  lemma {:induction false} SplitWords(s: string)
    ensures forall i :: 0 <= i < |Split(s)| ==> IsWord(Split(s)[i])
    decreases |s|
  {
    var t := LStrip(s);
    if t != [] {
      var w := Word(t);
      assert !IsSpace(t[0]);
      SplitWords(t[|w|..]);
      var rest := Split(t[|w|..]);
      assert Split(s) == [w] + rest;
      forall i | 0 <= i < 1 + |rest|
        ensures IsWord(([w] + rest)[i])
      {
        if i > 0 {
          assert ([w] + rest)[i] == rest[i - 1];
        }
      }
    }
  }

  /** The words of `Split(s)` rejoin with single spaces to the text's words. */
  lemma SplitNoSpaces(s: string)
    requires s != [] && forall i :: 0 <= i < |s| ==> !IsSpace(s[i])
    ensures Split(s) == [s]
  {
    assert LeadingSpaces(s) == 0;
    assert LStrip(s) == s;
    WordWhole(s);
    assert s[|s|..] == [];
    assert Split([]) == [] by {
      assert LStrip([]) == [];
    }
  }

  lemma {:induction false} WordWhole(s: string)
    requires forall i :: 0 <= i < |s| ==> !IsSpace(s[i])
    ensures Word(s) == s
  {
    if s != [] {
      assert forall i :: 0 <= i < |s| - 1 ==> s[1..][i] == s[i + 1];
      WordWhole(s[1..]);
    }
  }

  /** A word followed by whitespace: the head run of `w + rest` is exactly `w`. */
  lemma {:induction false} WordBeforeSpace(w: string, rest: string)
    requires IsWord(w) && rest != [] && IsSpace(rest[0])
    ensures Word(w + rest) == w
    decreases |w|
  {
    var s := w + rest;
    assert s[0] == w[0];
    if |w| == 1 {
      assert s[1..] == rest;
      assert Word(rest) == "";
    } else {
      assert s[1..] == w[1..] + rest;
      WordBeforeSpace(w[1..], rest);
    }
  }

  /** Leading whitespace does not change the words. */
  lemma SplitAfterSpace(c: char, s: string)
    requires IsSpace(c)
    ensures Split([c] + s) == Split(s)
  {
    var t := [c] + s;
    assert t[1..] == s;
    assert LeadingSpaces(t) == 1 + LeadingSpaces(s);
    assert LStrip(t) == LStrip(s);
  }

  /** Words joined with single spaces neither start nor end with whitespace. */
  lemma {:induction false} JoinEnds(ws: seq<string>)
    requires ws != [] && forall i :: 0 <= i < |ws| ==> IsWord(ws[i])
    ensures var j := Join(" ", ws);
      j != [] && !IsSpace(j[0]) && !IsSpace(j[|j| - 1])
  {
    var w := ws[0];
    assert IsWord(w);
    if |ws| == 1 {
      assert Join(" ", ws) == w;
      assert !IsSpace(w[|w| - 1]);
    } else {
      var rest := ws[1..];
      assert forall i :: 0 <= i < |rest| ==> rest[i] == ws[i + 1];
      JoinEnds(rest);
      var j := Join(" ", rest);
      var s := w + " " + j;
      assert Join(" ", ws) == s;
      assert s[0] == w[0] && s[|s| - 1] == j[|j| - 1];
    }
  }

  /** A word, a space and more text split into the word and the words of the rest. */
  lemma SplitCons(w: string, j: string)
    requires IsWord(w)
    ensures Split(w + " " + j) == [w] + Split(j)
  {
    var s := w + (" " + j);
    assert w + " " + j == s;
    assert LeadingSpaces(s) == 0 by {
      assert s[0] == w[0];
    }
    assert LStrip(s) == s;
    WordBeforeSpace(w, " " + j);
    assert s[|w|..] == [' '] + j;
    SplitAfterSpace(' ', j);
  }

  /** Splitting words joined by single spaces gives the words back. */
  lemma {:induction false} SplitJoin(ws: seq<string>)
    requires forall i :: 0 <= i < |ws| ==> IsWord(ws[i])
    ensures Split(Join(" ", ws)) == ws
  {
    if ws == [] {
      assert LStrip("") == "";
    } else if |ws| == 1 {
      SplitNoSpaces(ws[0]);
    } else {
      var w, rest := ws[0], ws[1..];
      assert IsWord(w);
      assert forall i :: 0 <= i < |rest| ==> rest[i] == ws[i + 1];
      assert Join(" ", ws) == w + " " + Join(" ", rest);
      SplitCons(w, Join(" ", rest));
      SplitJoin(rest);
      assert ws == [w] + rest;
    }
  }

  /** String comparison `a < b` (code-point lexicographic), as Python and JavaScript do. */
  predicate LexLess(a: string, b: string)
  {
    if a == [] then b != []
    else if b == [] then false
    else if a[0] != b[0] then a[0] < b[0]
    else LexLess(a[1..], b[1..])
  }

  lemma {:induction false} LexLessIrreflexive(a: string)
    ensures !LexLess(a, a)
  {
    if a != [] {
      LexLessIrreflexive(a[1..]);
    }
  }

  lemma {:induction false} LexLessTransitive(a: string, b: string, c: string)
    requires LexLess(a, b) && LexLess(b, c)
    ensures LexLess(a, c)
  {
    if a != [] && b != [] && c != [] && a[0] == b[0] && b[0] == c[0] {
      LexLessTransitive(a[1..], b[1..], c[1..]);
    }
  }

  lemma {:induction false} LexLessTotal(a: string, b: string)
    ensures a == b || LexLess(a, b) || LexLess(b, a)
  {
    if a != [] && b != [] && a[0] == b[0] {
      LexLessTotal(a[1..], b[1..]);
      if a[1..] == b[1..] {
        assert a == [a[0]] + a[1..] && b == [b[0]] + b[1..];
      }
    }
  }
}
