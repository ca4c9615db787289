// The dashboard's command bar and the small classifiers the front end uses
// when it renders engine data: the parser behind "@key verb value" commands,
// the autocomplete list with its highlighted row, the source badge, the
// colour class of a change and the position of the scorecard gauge.
module CommandBar {
  import opened Wrappers
  import opened Text
  import opened Values
  import Numbers
  import Research
  import Scorecard

  // ----- handleCommand ---------------------------------------------------------

  /** What a command asks the dashboard to do. */
  datatype Action =
    | Nothing                                 // empty input: only the list is hidden
    | Compare(left: string, right: string)    // the comparison popup
    | SetOverride(key: string, value: string) // a manual override of an entity's value
    | ClearOverride(key: string)
    | Chart(key: string)                      // switch the main chart to the entity
    | Popup(key: string)                      // the entity popup ("explain" and the default)

  /** `s.replace(/^@/, "")`. */
  function DropAt(s: string): string
  {
    if s != [] && s[0] == '@' then s[1..] else s
  }

  /**
   * The second capture of `@?(\S+)` on a whole token: a leading '@' is
   * dropped only when at least one character follows it.
   */
  function Target(token: string): string
  {
    if |token| >= 2 && token[0] == '@' then token[1..] else token
  }

  /** `input.split(/\s+/)` on trimmed text: its words, or one empty token for the empty text. */
  function Tokens(input: string): (r: seq<string>)
    ensures r != []
  {
    var ws := Split(input);
    if ws == [] then [""] else ws
  }

  /**
   * The verbs: the first token names the entity, the lower-cased second one
   * is the verb and the remaining tokens, joined by single spaces, the value.
   */
  function Dispatch(tokens: seq<string>): (r: Action)
    requires tokens != []
    ensures r != Nothing && !r.Compare?
    ensures r.SetOverride? ==> r.value != ""
    ensures r.key == tokens[0]
  {
    var key := tokens[0];
    var verb := if |tokens| > 1 then Lower(tokens[1]) else "";
    var value := if |tokens| > 2 then Join(" ", tokens[2..]) else "";
    if verb == "set" && value != "" then SetOverride(key, value)
    else if verb == "clear" then ClearOverride(key)
    else if verb == "graph" || verb == "chart" then Chart(key)
    else Popup(key)
  }

  /**
   * The trimmed input's tokens: `A vs B` (case-insensitive "vs", exactly
   * three tokens) is recognised before any verb.
   */
  function Interpret(tokens: seq<string>): (r: Action)
    requires tokens != []
    ensures r != Nothing
    ensures r.Compare? <==> |tokens| == 3 && Lower(tokens[1]) == "vs"
  {
    if |tokens| == 3 && Lower(tokens[1]) == "vs" then Compare(tokens[0], Target(tokens[2]))
    else Dispatch(tokens)
  }

  /** `handleCommand(raw)`: nothing for the empty text, otherwise the command of the text without one leading '@', trimmed. */
  function Parse(raw: string): (r: Action)
    ensures r == Nothing <==> raw == ""
  {
    if raw == "" then Nothing else Interpret(Tokens(Strip(DropAt(raw))))
  }

  predicate AllWords(ws: seq<string>)
  {
    forall i :: 0 <= i < |ws| ==> IsWord(ws[i])
  }

  /** Any text that, without its leading '@', is words separated by single spaces is interpreted on those words. */
  lemma ParseOf(raw: string, ws: seq<string>)
    requires raw != "" && ws != [] && AllWords(ws) && DropAt(raw) == Join(" ", ws)
    ensures Parse(raw) == Interpret(ws)
  {
    var j := Join(" ", ws);
    JoinEnds(ws);
    StripTrimmed(j);
    SplitJoin(ws);
  }

  /** A command typed as words separated by single spaces after an '@' is interpreted on exactly those words. */
  lemma ParseWords(ws: seq<string>)
    requires ws != [] && AllWords(ws)
    ensures Parse("@" + Join(" ", ws)) == Interpret(ws)
  {
    var j := Join(" ", ws);
    assert ("@" + j)[1..] == j;
    ParseOf("@" + j, ws);
  }

  /** The '@' is optional: without it the same words give the same command. */
  lemma AtOptional(ws: seq<string>)
    requires ws != [] && AllWords(ws) && ws[0][0] != '@'
    ensures Parse(Join(" ", ws)) == Parse("@" + Join(" ", ws))
  {
    var j := Join(" ", ws);
    assert j[0] == ws[0][0] by {
      if |ws| > 1 {
        assert j == ws[0] + " " + Join(" ", ws[1..]);
      }
    }
    ParseOf(j, ws);
    ParseWords(ws);
  }

  /** `@key set v1 v2 ...` sets the override to the value words joined by single spaces, whatever the verb's case. */
  lemma SetCommand(key: string, verb: string, values: seq<string>)
    requires IsWord(key) && IsWord(verb) && Lower(verb) == "set"
    requires values != [] && AllWords(values)
    ensures Parse("@" + Join(" ", [key, verb] + values)) == SetOverride(key, Join(" ", values))
  {
    var ws := [key, verb] + values;
    assert AllWords(ws) by {
      assert forall i :: 2 <= i < |ws| ==> ws[i] == values[i - 2];
    }
    ParseWords(ws);
    assert ws[2..] == values;
    JoinEnds(values);
    assert Lower(ws[1]) != "vs";
  }

  /** `@key set` with no value is no override: it opens the entity popup. */
  lemma SetWithoutValue(key: string, verb: string)
    requires IsWord(key) && IsWord(verb) && Lower(verb) == "set"
    ensures Parse("@" + Join(" ", [key, verb])) == Popup(key)
  {
    var ws := [key, verb];
    assert ws[1] == verb && Lower(verb) != "vs";
    assert Dispatch(ws) == Popup(key);
    ParseWords(ws);
  }

  /** `@key clear ...` clears the override; words after the verb are ignored. */
  lemma ClearCommand(key: string, verb: string, extra: seq<string>)
    requires IsWord(key) && IsWord(verb) && Lower(verb) == "clear" && AllWords(extra)
    ensures Parse("@" + Join(" ", [key, verb] + extra)) == ClearOverride(key)
  {
    var ws := [key, verb] + extra;
    assert AllWords(ws) by {
      assert forall i :: 2 <= i < |ws| ==> ws[i] == extra[i - 2];
    }
    ParseWords(ws);
    assert Lower(ws[1]) != "vs";
  }

  /** `@key graph ...` and `@key chart ...` switch the chart to the entity. */
  lemma ChartCommand(key: string, verb: string, extra: seq<string>)
    requires IsWord(key) && IsWord(verb) && (Lower(verb) == "graph" || Lower(verb) == "chart")
    requires AllWords(extra)
    ensures Parse("@" + Join(" ", [key, verb] + extra)) == Chart(key)
  {
    var ws := [key, verb] + extra;
    assert ws[0] == key && ws[1] == verb;
    assert AllWords(ws) by {
      assert forall i :: 2 <= i < |ws| ==> ws[i] == extra[i - 2];
    }
    var lv := Lower(verb);
    assert lv != "vs" && lv != "set" && lv != "clear";
    assert Interpret(ws) == Chart(key);
    ParseWords(ws);
  }

  /** A bare `@key` opens that entity's popup. */
  lemma LookupCommand(key: string)
    requires IsWord(key)
    ensures Parse("@" + key) == Popup(key)
  {
    ParseWords([key]);
  }

  /** `@a vs @b` compares `a` with `b`, whatever the case of "vs". */
  lemma CompareCommand(a: string, vs: string, b: string)
    requires IsWord(a) && IsWord(vs) && IsWord(b) && Lower(vs) == "vs"
    ensures Parse("@" + Join(" ", [a, vs, "@" + b])) == Compare(a, b)
  {
    CompareWords(a, vs, b);
    ParseWords([a, vs, "@" + b]);
  }

  /** The words of `a vs @b` are words, and they compare `a` with `b`. */
  lemma CompareWords(a: string, vs: string, b: string)
    requires IsWord(a) && IsWord(vs) && IsWord(b) && Lower(vs) == "vs"
    ensures AllWords([a, vs, "@" + b]) && Interpret([a, vs, "@" + b]) == Compare(a, b)
  {
    AtWord(b);
  }

  /** An '@' before a word gives a word that names the same target. */
  lemma AtWord(b: string)
    requires IsWord(b)
    ensures IsWord("@" + b) && Target("@" + b) == b
  {
    var t := "@" + b;
    assert forall i :: 1 <= i < |t| ==> t[i] == b[i - 1];
    assert t[1..] == b;
  }

  /** The '@' before the second operand is optional: `@a vs b` compares the same pair. */
  lemma CompareBareTarget(a: string, vs: string, b: string)
    requires IsWord(a) && IsWord(vs) && IsWord(b) && Lower(vs) == "vs" && b[0] != '@'
    ensures Parse("@" + Join(" ", [a, vs, b])) == Compare(a, b)
  {
    var ws := [a, vs, b];
    assert ws[1] == vs && ws[2] == b;
    assert Target(b) == b;
    assert Interpret(ws) == Compare(a, b);
    ParseWords(ws);
  }

  // ----- the autocomplete list ---------------------------------------------------

  /** `Math.min(i + 1, n - 1)`: ArrowDown. */
  function Down(i: int, n: int): (r: int)
    ensures 0 <= i < n ==> i <= r < n && (r == i <==> i == n - 1)
  {
    if i + 1 < n - 1 then i + 1 else n - 1
  }

  /** `Math.max(i - 1, 0)`: ArrowUp. */
  function Up(i: int): (r: int)
    ensures 0 <= i ==> 0 <= r <= i && (r == i <==> i == 0)
  {
    if i - 1 > 0 then i - 1 else 0
  }

  /** `k` presses of ArrowDown from row `i` of `n`. */
  function DownTimes(i: int, n: int, k: nat): int
    decreases k
  {
    if k == 0 then i else DownTimes(Down(i, n), n, k - 1)
  }

  /** `k` presses of ArrowUp from row `i`. */
  function UpTimes(i: int, k: nat): int
    decreases k
  {
    if k == 0 then i else UpTimes(Up(i), k - 1)
  }

  /** Pressing ArrowDown `k` times moves `k` rows down, stopping at the last row. */
  lemma {:induction false} DownTimesStops(i: int, n: int, k: nat)
    requires 0 <= i < n
    ensures DownTimes(i, n, k) == if i + k < n - 1 then i + k else n - 1
    decreases k
  {
    if k > 0 {
      DownTimesStops(Down(i, n), n, k - 1);
    }
  }

  /** Pressing ArrowUp `k` times moves `k` rows up, stopping at the first row. */
  lemma {:induction false} UpTimesStops(i: int, k: nat)
    requires 0 <= i
    ensures UpTimes(i, k) == if i - k > 0 then i - k else 0
    decreases k
  {
    if k > 0 {
      UpTimesStops(Up(i), k - 1);
    }
  }

  /** A key press in the command input. */
  datatype Key = ArrowDown | ArrowUp | Enter | OtherKey

  /** What a key press leads to beyond the list's own state. */
  datatype Effect = NoEffect | Select(key: string) | Run(action: Action)

  /**
   * The autocomplete list: the keys of the last search's results
   * (`cmdResults`), the highlighted row (`cmdSelectedIndex`) and whether the
   * list is on screen.
   */
  class AutoComplete {
    var results: seq<string>
    var selected: int
    var shown: bool

    /** A row is highlighted exactly when there are results, and only a non-empty list is shown. */
    ghost predicate Valid()
      reads this
    {
      (results == [] ==> selected == -1) &&
      (results != [] ==> 0 <= selected < |results|) &&
      (shown ==> results != [])
    }

    constructor()
      ensures Valid()
      ensures results == [] && selected == -1 && !shown
    {
      results := [];
      selected := -1;
      shown := false;
    }

    /**
     * The input handler: an input that trims to nothing hides and empties the
     * list; anything else starts a search for the trimmed text without its
     * leading '@', returned as `query`.
     */
    method Input(value: string) returns (query: Option<string>)
      requires Valid()
      modifies this
      ensures Valid()
      ensures Strip(value) == "" ==> query == None && results == [] && selected == -1 && !shown
      ensures Strip(value) != "" ==>
        query == Some(DropAt(Strip(value))) && results == old(results) && selected == old(selected) && shown == old(shown)
    {
      var val := Strip(value);
      if val == "" {
        shown := false;
        results := [];
        selected := -1;
        query := None;
      } else {
        query := Some(DropAt(val));
      }
    }

    /** A search answered: its results replace the list, the first row is highlighted, and the list shows when not empty. */
    method SearchDone(found: seq<string>)
      requires Valid()
      modifies this
      ensures Valid()
      ensures results == found && shown == (found != [])
      ensures selected == if found == [] then -1 else 0
    {
      results := found;
      selected := if |found| > 0 then 0 else -1;
      shown := found != [];
    }

    /** A failed search, a click outside the bar or Escape: the list is hidden and kept. */
    method Hide()
      requires Valid()
      modifies this
      ensures Valid()
      ensures !shown && results == old(results) && selected == old(selected)
    {
      shown := false;
    }

    /** Focusing the input shows the kept list when it has rows. */
    method Focus()
      requires Valid()
      modifies this
      ensures Valid()
      ensures shown == (old(shown) || results != [])
      ensures results == old(results) && selected == old(selected)
    {
      if |results| > 0 {
        shown := true;
      }
    }

    /**
     * The key handler of the input, given the input's text. With the list
     * hidden only Enter acts and runs the command; with the list shown the
     * arrows move the highlight and Enter always picks the highlighted
     * entity.
     */
    method KeyDown(k: Key, value: string) returns (e: Effect)
      requires Valid()
      modifies this
      ensures Valid()
      ensures results == old(results)
      ensures !old(shown) ==>
        !shown && selected == old(selected) && e == (if k == Enter then Run(Parse(Strip(value))) else NoEffect)
      ensures old(shown) && k == ArrowDown ==> shown && selected == Down(old(selected), |results|) && e == NoEffect
      ensures old(shown) && k == ArrowUp ==> shown && selected == Up(old(selected)) && e == NoEffect
      ensures old(shown) && k == Enter ==> !shown && selected == old(selected) && e == Select(results[selected])
      ensures old(shown) && k == OtherKey ==> shown && selected == old(selected) && e == NoEffect
    {
      if !shown {
        e := if k == Enter then Run(Parse(Strip(value))) else NoEffect;
        return;
      }
      match k
      case ArrowDown =>
        selected := Down(selected, |results|);
        e := NoEffect;
      case ArrowUp =>
        selected := Up(selected);
        e := NoEffect;
      case Enter =>
        shown := false;
        if selected >= 0 && selected < |results| {
          e := Select(results[selected]);
        } else {
          e := Run(Parse(Strip(value)));
        }
      case OtherKey =>
        e := NoEffect;
    }
  }

  // ----- srcTag -------------------------------------------------------------------

  /** The badge letter `srcTag` shows for a data source: "" (none), "S" (scraped), "C" (calculated) or "A" (API). */
  function SrcLabel(src: Option<string>): (r: string)
    ensures r == "" <==> src == None || src == Some("") || src == Some(NA)
    ensures r == "S" <==> src.Some? && src.value != NA && StartsWith(src.value, "SCRAPE")
  {
    if src == None || src.value == "" || src.value == NA then ""
    else if StartsWith(src.value, "SCRAPE") then "S"
    else if src.value == "CALC" || Contains(src.value, "+CALC") then "C"
    else "A"
  }

  /** The source tags the engine writes get the badges their names promise. */
  lemma EngineSourceLabels(site: string)
    ensures SrcLabel(Some("EVDS")) == "A"
    ensures SrcLabel(Some("CALC")) == "C"
    ensures SrcLabel(Some("EVDS+CALC")) == "C"
    ensures SrcLabel(Some("SCRAPE:" + site)) == "S"
    ensures SrcLabel(Some(NA)) == "" && SrcLabel(None) == ""
  {
    assert !StartsWith("EVDS", "SCRAPE");
    assert !Contains("EVDS", "+CALC") by {
      forall i | OccursAt("+CALC", "EVDS", i)
        ensures false
      {
      }
    }
    assert !StartsWith("EVDS+CALC", "SCRAPE") by {
      assert "EVDS+CALC"[0] == 'E';
    }
    assert OccursAt("+CALC", "EVDS+CALC", 4);
    assert ("SCRAPE:" + site)[..6] == "SCRAPE";
  }

  // ----- chgCls ---------------------------------------------------------------------

  /** `chgCls`: "na" for a missing change, otherwise "up" when `parseFloat` reads a value >= 0 and "down" otherwise (NaN included). */
  function ChgCls(v: Value): (r: string)
    ensures r == "na" <==> IsMissing(v)
  {
    if IsMissing(v) then "na"
    else
      var x := if v.Num? then Some(v.n) else Numbers.JsParseFloat(v.s);
      if x.Some? && x.value >= 0.0 then "up" else "down"
  }

  /** A numeric change is coloured "up" exactly when the research formatter writes it with a '+'. */
  lemma ChgClsAgreesWithSign(x: real)
    ensures ChgCls(Num(x)) == "up" <==> Research.Sign(Num(x))[0] == '+'
    ensures ChgCls(Num(x)) == "down" <==> Research.Sign(Num(x))[0] == '-'
  {
    Research.SignCases(Num(x));
  }

  // ----- the scorecard gauge ------------------------------------------------------------

  /** `((score + 100) / 200) * 100` with `score = data.composite || 0`. */
  function GaugePercent(composite: Option<real>): (pct: real)
    ensures composite.None? ==> pct == 50.0
    ensures composite.Some? ==> composite.value == 2.0 * pct - 100.0
  {
    var score := if composite.Some? then composite.value else 0.0;
    (score + 100.0) / 200.0 * 100.0
  }

  /** The gauge maps the composite range [-100, 100] onto [0, 100], in order. */
  lemma GaugeRange(a: real, b: real)
    ensures -100.0 <= a <= 100.0 <==> 0.0 <= GaugePercent(Some(a)) <= 100.0
    ensures a <= b <==> GaugePercent(Some(a)) <= GaugePercent(Some(b))
  {
    var pa, pb := GaugePercent(Some(a)), GaugePercent(Some(b));
    assert a == 2.0 * pa - 100.0 && b == 2.0 * pb - 100.0;
  }

  /** Every composite the scorecard produces puts the gauge inside its bar. */
  lemma ScorecardGauge(rd: Scorecard.Readings)
    ensures 0.0 <= GaugePercent(Some(Scorecard.CardOf(rd).composite)) <= 100.0
  {
    Scorecard.CompositeBounded(rd);
    var c := Scorecard.CardOf(rd).composite;
    GaugeRange(c, c);
  }
}
