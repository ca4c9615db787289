// The anomaly and divergence rules of the sigma scanner (engine/alerts.py).
// The scanner object keeps no state its rules read, so the rules are
// functions; the history fetch is passed in as its outcome.
module Alerts {
  import opened Wrappers
  import opened Values
  import opened Analytics

  /** The alert dictionaries: the message is the text before its formatted figure. */
  datatype Alert =
    | Anomaly(kind: string, level: string, message: string, z: ZScore)
    | DivergenceAlert(level: string, message: string, relatedChange: real)

  /** Fewer explicit points than this and the scanner fetches three months of history. */
  const FetchBelow: nat := 5
  /** Fewer points than this and no z-score is judged. */
  const MinSample: nat := 20

  /** `[x["close"] for x in raw_hist if x.get("close")]`: closes that are present and non-zero. */
  function TruthyCloses(candles: seq<Option<real>>): (r: seq<Option<real>>)
    ensures |r| <= |candles|
    ensures forall i :: 0 <= i < |r| ==> r[i].Some? && r[i].value != 0.0
  {
    if candles == [] then []
    else
      (if candles[0].Some? && candles[0].value != 0.0 then [candles[0]] else [])
      + TruthyCloses(candles[1..])
  }

  /**
   * The series the scanner judges: the explicit history when it has at least
   * five entries; otherwise the fetched closes when the fetch returned a
   * non-empty list, else the explicit history unchanged.
   */
  function ScanSeries(explicit: seq<Option<real>>, fetched: Outcome<seq<Option<real>>>): (r: seq<Option<real>>)
    ensures |explicit| >= FetchBelow ==> r == explicit
    ensures |explicit| < FetchBelow && fetched.Ok? && fetched.value != [] ==> r == TruthyCloses(fetched.value)
    ensures |explicit| < FetchBelow && (fetched.Raised? || fetched.value == []) ==> r == explicit
  {
    if |explicit| >= FetchBelow then explicit
    else match fetched
      case Ok(raw) => if raw != [] then TruthyCloses(raw) else explicit
      case Raised => explicit
  }

  /**
   * z_score with a dynamically typed current value: the subtraction is only
   * reached with two or more usable points and a non-zero spread, and a
   * non-numeric current value raises there.
   */
  function ZScoreValue(current: Value, history: seq<Option<real>>): (r: Outcome<ZScore>)
    ensures current.Num? ==> r == Ok(ZScoreOf(current.n, history))
    ensures !current.Num? ==> (r.Raised? <==> ZScoreOf(0.0, history).ZRatio?)
    ensures r.Ok? && !current.Num? ==> r.value == ZZero
  {
    var z := ZScoreOf(0.0, history);
    if current.Num? then Ok(ZScoreOf(current.n, history))
    else if z.ZRatio? then Raised
    else Ok(ZZero)
  }

  /** The two thresholds on |z|. */
  function Classify(z: ZScore): (r: Option<Alert>)
    ensures r.Some? <==> AbsAtLeast(z, 2.0)
    ensures r.Some? ==> r.value.Anomaly? && r.value.z == z
    ensures r.Some? ==> (r.value.kind == "BLACK_SWAN" <==> AbsAtLeast(z, 3.0))
    ensures r.Some? && r.value.kind == "BLACK_SWAN" ==> r.value.level == "CRITICAL"
    ensures r.Some? && r.value.kind != "BLACK_SWAN" ==> r.value.kind == "SIGMA" && r.value.level == "WARNING"
  {
    if AbsAtLeast(z, 3.0) then Some(Anomaly("BLACK_SWAN", "CRITICAL", "3-SIGMA EVENT", z))
    else if AbsAtLeast(z, 2.0) then Some(Anomaly("SIGMA", "WARNING", "Sigma Alert", z))
    else None
  }

  /** Reaching three sigma implies reaching two: the rules are nested, not overlapping. */
  lemma ThresholdsNested(z: ZScore)
    requires WellFormed(z)
    ensures AbsAtLeast(z, 3.0) ==> AbsAtLeast(z, 2.0)
  {
    if z.ZRatio? {
      assert 9.0 * z.variance >= 4.0 * z.variance;
    }
  }

  /**
   * check_anomaly(key, current, history): `fetched` is what fetching the
   * key's three-month history gives (consulted only for short histories).
   */
  function CheckAnomaly(current: Value, explicit: seq<Option<real>>, fetched: Outcome<seq<Option<real>>>): (r: Outcome<Option<Alert>>)
    ensures |ScanSeries(explicit, fetched)| < MinSample ==> r == Ok(None)
    ensures |ScanSeries(explicit, fetched)| >= MinSample && current.Num? ==>
              r == Ok(Classify(ZScoreOf(current.n, ScanSeries(explicit, fetched))))
    ensures r.Ok? && r.value.Some? ==> r.value.value.Anomaly?
  {
    var hist := ScanSeries(explicit, fetched);
    if |hist| < MinSample then Ok(None)
    else match ZScoreValue(current, hist)
      case Ok(z) => Ok(Classify(z))
      case Raised => Raised
  }

  /** A long explicit history is judged on its own: the fetch outcome is irrelevant. */
  lemma ExplicitHistoryIgnoresFetch(current: Value, explicit: seq<Option<real>>, f1: Outcome<seq<Option<real>>>, f2: Outcome<seq<Option<real>>>)
    requires |explicit| >= FetchBelow
    ensures CheckAnomaly(current, explicit, f1) == CheckAnomaly(current, explicit, f2)
  {
  }

  /** A non-numeric current value never yields an alert: it raises or gives nothing. */
  lemma NonNumericNeverAlerts(current: Value, explicit: seq<Option<real>>, fetched: Outcome<seq<Option<real>>>)
    requires !current.Num?
    ensures CheckAnomaly(current, explicit, fetched) == Ok(None) || CheckAnomaly(current, explicit, fetched).Raised?
  {
    var hist := ScanSeries(explicit, fetched);
    if |hist| >= MinSample {
      var z := ZScoreValue(current, hist);
      if z.Ok? {
        assert z.value == ZZero;
        assert !AbsAtLeast(ZZero, 2.0);
      }
    }
  }

  /** An alerted z-score lies on the current value's side of the mean, so the signed message matches the move. */
  lemma AlertSideOfMean(current: real, explicit: seq<Option<real>>, fetched: Outcome<seq<Option<real>>>)
    requires CheckAnomaly(Num(current), explicit, fetched).Ok?
    requires CheckAnomaly(Num(current), explicit, fetched).value.Some?
    ensures var hist := ScanSeries(explicit, fetched);
            |Clean(hist)| >= 2 &&
            (NonNegative(CheckAnomaly(Num(current), explicit, fetched).value.value.z) <==> current >= Mean(Clean(hist)))
  {
    var hist := ScanSeries(explicit, fetched);
    var z := ZScoreOf(current, hist);
    assert Classify(z).Some?;
    assert z.ZRatio?;
  }

  // ----- divergence -----------------------------------------------------

  /** One `related_data` entry: a dictionary that may lack either key. */
  datatype Related = Related(value: Option<Value>, change: Option<Value>)

  /** A related entry is truthy when its dictionary is non-empty. */
  predicate RelatedPresent(related: map<string, Related>, name: string)
  {
    name in related && (related[name].value.Some? || related[name].change.Some?)
  }

  /** `entry.get("change_pct", 0)`. */
  function ChangeOf(e: Related): Value
  {
    e.change.GetOr(Num(0.0))
  }

  /** `a > bound` with Python 3 semantics: comparing None or a string with a float raises. */
  function GreaterThan(a: Value, bound: real): (r: Outcome<bool>)
    ensures r.Ok? <==> a.Num?
    ensures a.Num? ==> r.value == (a.n > bound)
  {
    if a.Num? then Ok(a.n > bound) else Raised
  }

  /** `abs(a) < bound`; `abs` of None or a string raises. */
  function AbsLessThan(a: Value, bound: real): (r: Outcome<bool>)
    ensures r.Ok? <==> a.Num?
    ensures a.Num? ==> r.value == (-bound < a.n < bound)
  {
    if a.Num? then Ok(if a.n < 0.0 then -a.n < bound else a.n < bound) else Raised
  }

  /** `first and second`, evaluated left to right: the second test only runs when the first holds. */
  function AndThen(first: Outcome<bool>, second: Outcome<bool>): Outcome<bool>
  {
    match first
    case Raised => Raised
    case Ok(false) => Ok(false)
    case Ok(true) => second
  }

  /** Rule 1: the lira flat (|move| < 0.1%) while CDS rises more than 2%. */
  function HiddenStress(key: string, change: Value, related: map<string, Related>): (r: Outcome<seq<Alert>>)
    ensures key != "usdtry" || !RelatedPresent(related, "cds") ==> r == Ok([])
    ensures r.Ok? ==> |r.value| <= 1
  {
    if key == "usdtry" && RelatedPresent(related, "cds") then
      var cdsChange := ChangeOf(related["cds"]);
      match AndThen(AbsLessThan(change, 0.1), GreaterThan(cdsChange, 2.0))
      case Raised => Raised
      case Ok(fire) =>
        if fire then Ok([DivergenceAlert("WARNING", "Hidden Stress: Lira flat but CDS spiking", cdsChange.n)])
        else Ok([])
    else Ok([])
  }

  /** Rule 2: BIST rallying more than 1% while VIX rises more than 5%. */
  function FragileRally(key: string, change: Value, related: map<string, Related>): (r: Outcome<seq<Alert>>)
    ensures key != "bist100" || !RelatedPresent(related, "vix") ==> r == Ok([])
    ensures r.Ok? ==> |r.value| <= 1
  {
    if key == "bist100" && RelatedPresent(related, "vix") then
      var vixChange := ChangeOf(related["vix"]);
      match AndThen(GreaterThan(change, 1.0), GreaterThan(vixChange, 5.0))
      case Raised => Raised
      case Ok(fire) =>
        if fire then Ok([DivergenceAlert("CAUTION", "Fragile Rally: BIST up despite Global Fear", vixChange.n)])
        else Ok([])
    else Ok([])
  }

  /** check_divergence: the alerts of both rules, or None when neither fires. */
  function CheckDivergence(key: string, change: Value, related: map<string, Related>): (r: Outcome<Option<seq<Alert>>>)
    ensures key != "usdtry" && key != "bist100" ==> r == Ok(None)
    ensures r.Ok? && r.value.Some? ==> |r.value.value| == 1
  {
    match HiddenStress(key, change, related)
    case Raised => Raised
    case Ok(a1) =>
      match FragileRally(key, change, related)
      case Raised => Raised
      case Ok(a2) =>
        var alerts := a1 + a2;
        assert key == "usdtry" ==> a2 == [];
        assert key != "usdtry" ==> a1 == [];
        if alerts == [] then Ok(None) else Ok(Some(alerts))
  }

  /** The hidden-stress alert fires exactly when the lira is flat and CDS rises past 2%. */
  lemma HiddenStressExactly(change: real, cdsChange: real, value: Option<Value>)
    ensures var related := map["cds" := Related(value, Some(Num(cdsChange)))];
            var r := CheckDivergence("usdtry", Num(change), related);
            r.Ok? &&
            (r.value.Some? <==> -0.1 < change < 0.1 && cdsChange > 2.0) &&
            (r.value.Some? ==> r.value.value == [DivergenceAlert("WARNING", "Hidden Stress: Lira flat but CDS spiking", cdsChange)])
  {
  }

  /** With no CDS change reported the comparison meets None: it raises when the lira is flat and is silent otherwise. */
  lemma HiddenStressMissingChange(change: real, value: Value)
    ensures var related := map["cds" := Related(Some(value), Some(Null))];
            var r := CheckDivergence("usdtry", Num(change), related);
            (r.Raised? <==> -0.1 < change < 0.1) && (r.Ok? ==> r.value.None?)
  {
  }

  /** The fragile-rally alert fires exactly when BIST is up more than 1% and VIX more than 5%. */
  lemma FragileRallyExactly(change: real, vixChange: real, value: Option<Value>)
    ensures var related := map["vix" := Related(value, Some(Num(vixChange)))];
            var r := CheckDivergence("bist100", Num(change), related);
            r.Ok? &&
            (r.value.Some? <==> change > 1.0 && vixChange > 5.0) &&
            (r.value.Some? ==> r.value.value == [DivergenceAlert("CAUTION", "Fragile Rally: BIST up despite Global Fear", vixChange)])
  {
  }

  /** The three scripted divergence cases: flat lira with CDS +3.5%, lira +1% with CDS -2%, BIST +1.5% with VIX +6%. */
  lemma DivergenceCases()
    ensures CheckDivergence("usdtry", Num(0.05), map["cds" := Related(Some(Num(300.0)), Some(Num(3.5)))]).Ok?
    ensures CheckDivergence("usdtry", Num(0.05), map["cds" := Related(Some(Num(300.0)), Some(Num(3.5)))]).value.Some?
    ensures CheckDivergence("usdtry", Num(1.0), map["cds" := Related(Some(Num(290.0)), Some(Num(-2.0)))]) == Ok(None)
    ensures CheckDivergence("bist100", Num(1.5), map["vix" := Related(Some(Num(25.0)), Some(Num(6.0)))]).Ok?
    ensures CheckDivergence("bist100", Num(1.5), map["vix" := Related(Some(Num(25.0)), Some(Num(6.0)))]).value.Some?
  {
    HiddenStressExactly(0.05, 3.5, Some(Num(300.0)));
    HiddenStressExactly(1.0, -2.0, Some(Num(290.0)));
    FragileRallyExactly(1.5, 6.0, Some(Num(25.0)));
  }

  /** `[x] * n`. */
  function Repeat(x: real, n: nat): (r: seq<real>)
    ensures |r| == n
    ensures forall i :: 0 <= i < n ==> r[i] == x
  {
    if n == 0 then [] else [x] + Repeat(x, n - 1)
  }

  /** Twenty points cycling 8..12 put 15 beyond three sigma: a black-swan alert. */
  lemma BlackSwanCase(fetched: Outcome<seq<Option<real>>>)
    ensures var base := [8.0, 9.0, 10.0, 11.0, 12.0];
            var r := CheckAnomaly(Num(15.0), Present(base + base + base + base), fetched);
            r.Ok? && r.value.Some? && r.value.value.kind == "BLACK_SWAN"
  {
    var base := [8.0, 9.0, 10.0, 11.0, 12.0];
    var xs := base + base + base + base;
    CleanPresent(xs);
    ExampleMoments();
    SumAppend(base, base);
    SumAppend(base + base, base);
    SumAppend(base + base + base, base);
    assert Sum(xs) == 200.0;
    assert Mean(xs) == 10.0;
    SumSqDevAppend(base, base, 10.0);
    SumSqDevAppend(base + base, base, 10.0);
    SumSqDevAppend(base + base + base, base, 10.0);
    assert SumSqDev(xs, 10.0) == 40.0;
    assert SampleVariance(xs) == 40.0 / 19.0;
    assert ZScoreOf(15.0, Present(xs)) == ZRatio(5.0, 40.0 / 19.0);
  }

  /** Twenty identical points have no spread: 10.1 against them raises nothing. */
  lemma FlatHistoryCase(fetched: Outcome<seq<Option<real>>>)
    ensures CheckAnomaly(Num(10.1), Present(Repeat(10.0, 20)), fetched) == Ok(None)
  {
    var xs := Repeat(10.0, 20);
    CleanPresent(xs);
    ConstantHistoryScoresZero(10.1, Present(xs));
  }

  /**
   * With no explicit history, fifty fetched closes of 100 except a first of
   * 101 (mean 100.02, variance 0.02) put 105 beyond three sigma; `n` is the
   * number of closes after the first.
   */
  lemma FetchedHistoryCase(n: nat)
    requires n == 49
    ensures var closes := Present([101.0] + Repeat(100.0, n));
            var r := CheckAnomaly(Num(105.0), [], Ok(closes));
            r.Ok? && r.value.Some? && r.value.value.kind == "BLACK_SWAN"
  {
    var rest := Repeat(100.0, n);
    var xs := [101.0] + rest;
    var closes := Present(xs);
    assert ScanSeries([], Ok(closes)) == closes by {
      TruthyClosesPresent(xs);
    }
    assert Clean(closes) == xs by {
      CleanPresent(xs);
    }
    assert Mean(xs) == 100.02 by {
      SumAppend([101.0], rest);
      SumConstant(rest, 100.0);
    }
    assert SampleVariance(xs) == 0.02 by {
      SumSqDevAppend([101.0], rest, 100.02);
      SumSqDevConstant(rest, 100.0, 100.02);
    }
  }

  lemma {:induction false} TruthyClosesPresent(xs: seq<real>)
    requires forall i :: 0 <= i < |xs| ==> xs[i] != 0.0
    ensures TruthyCloses(Present(xs)) == Present(xs)
  {
    if xs != [] {
      TruthyClosesPresent(xs[1..]);
    }
  }
}
