// compute_fair_value (engine/valuation.py): gather the live values of a
// model's inputs through the resolver, then apply the entity's valuation
// model. The registry and the upstream snapshots are parameters.
module Valuation {
  import opened Wrappers
  import opened Values
  import opened Text
  import opened Numbers
  import opened Registry
  import opened Resolver

  /** The result dictionaries, without their formatted text. */
  datatype Payload =
    | PppGap(diff: real, signal: string)
    | SpreadGap(fairValue: real, gap: real)
    | ErpValue(erp: real)
    | Waiting(error: string)

  datatype FairValue = FairValue(model: string, payload: Payload)

  /** `float(v)`: numbers pass, strings are parsed, None and unparsable strings give None. */
  function SafeFloat(v: Value): (r: Option<real>)
    ensures v.Num? ==> r == Some(v.n)
    ensures v.Null? ==> r.None?
    ensures v.Str? ==> r == ParseFloat(v.s)
  {
    match v
    case Num(x) => Some(x)
    case Str(s) => ParseFloat(s)
    case Null => None
  }

  /** `input_values.get(k)`. */
  function InputOf(values: map<string, Value>, k: string): Value
  {
    if k in values then values[k] else Null
  }

  // ----- gathering inputs ----------------------------------------------

  /**
   * The input dictionary after visiting `inputs` in order: each name that
   * resolves is mapped to its level's value; the resolver's exception, if
   * any, propagates.
   */
  function InputValues(reg: seq<Registered>, up: Upstream, inputs: seq<string>): (r: Outcome<map<string, Value>>)
    ensures r.Ok? ==> forall k :: k in r.value <==> k in inputs && IsRegistered(reg, k)
    ensures r.Ok? ==> forall k :: k in r.value ==>
              GetCurrentLevel(k, Lookup(reg, k).value, up).Ok? &&
              r.value[k] == GetCurrentLevel(k, Lookup(reg, k).value, up).value.value
    ensures r.Raised? <==> exists i :: 0 <= i < |inputs| && IsRegistered(reg, inputs[i]) &&
                                       GetCurrentLevel(inputs[i], Lookup(reg, inputs[i]).value, up).Raised?
  {
    if inputs == [] then Ok(map[])
    else
      var init := inputs[..|inputs| - 1];
      var k := inputs[|inputs| - 1];
      assert forall x :: x in inputs <==> x in init || x == k;
      assert forall i :: 0 <= i < |init| ==> inputs[i] == init[i];
      match InputValues(reg, up, init)
      case Raised => Raised
      case Ok(values) =>
        match ResolveEntity(reg, k)
        case None => Ok(values)
        case Some(ie) =>
          match GetCurrentLevel(ie.key, ie.entry, up)
          case Raised => Raised
          case Ok(level) => Ok(values[k := level.value])
  }

  /** The loop that fills `input_values`. */
  method CollectInputs(reg: seq<Registered>, up: Upstream, inputs: seq<string>) returns (r: Outcome<map<string, Value>>)
    ensures r == InputValues(reg, up, inputs)
  {
    var values: map<string, Value> := map[];
    var i := 0;
    while i < |inputs|
      invariant 0 <= i <= |inputs|
      invariant InputValues(reg, up, inputs[..i]) == Ok(values)
    {
      var k := inputs[i];
      InputValuesNext(reg, up, inputs, i, values);
      var ie := ResolveEntity(reg, k);
      if ie.Some? {
        var level := GetCurrentLevel(ie.value.key, ie.value.entry, up);
        if level.Raised? {
          InputValuesRaisedPrefix(reg, up, inputs, i + 1);
          return Raised;
        }
        values := values[k := level.value.value];
      }
      i := i + 1;
    }
    assert inputs[..|inputs|] == inputs;
    r := Ok(values);
  }

  /** One more input extends the dictionary built from the inputs before it. */
  lemma InputValuesNext(reg: seq<Registered>, up: Upstream, inputs: seq<string>, i: nat, values: map<string, Value>)
    requires i < |inputs| && InputValues(reg, up, inputs[..i]) == Ok(values)
    ensures InputValues(reg, up, inputs[..i + 1]) ==
            match ResolveEntity(reg, inputs[i])
            case None => Ok(values)
            case Some(ie) =>
              match GetCurrentLevel(ie.key, ie.entry, up)
              case Raised => Raised
              case Ok(level) => Ok(values[inputs[i] := level.value])
  {
    assert inputs[..i + 1][..i] == inputs[..i];
  }

  /** Once an input raises, every longer prefix raises too. */
  lemma {:induction false} InputValuesRaisedPrefix(reg: seq<Registered>, up: Upstream, inputs: seq<string>, n: nat)
    requires n <= |inputs| && InputValues(reg, up, inputs[..n]).Raised?
    ensures InputValues(reg, up, inputs).Raised?
    decreases |inputs| - n
  {
    if n < |inputs| {
      assert inputs[..n + 1][..n] == inputs[..n];
      InputValuesRaisedPrefix(reg, up, inputs, n + 1);
    } else {
      assert inputs[..n] == inputs;
    }
  }

  // ----- the models ----------------------------------------------------

  const UsCpiApprox: real := 2.5

  /** Relative PPP: the inflation gap to an assumed 2.5% US CPI. */
  function Ppp(values: map<string, Value>): (r: FairValue)
    ensures r.model == "Relative PPP"
    ensures SafeFloat(InputOf(values, "cpi_yoy")).Some? <==> r.payload.PppGap?
    ensures r.payload.PppGap? ==>
              r.payload.diff == SafeFloat(InputOf(values, "cpi_yoy")).value - UsCpiApprox &&
              (r.payload.signal == "Undervalued" <==> r.payload.diff > 0.0)
    ensures r.payload.Waiting? ==> r.payload.error == "Waiting for CPI Data"
  {
    match SafeFloat(InputOf(values, "cpi_yoy"))
    case Some(cpi) =>
      var diff := cpi - UsCpiApprox;
      FairValue("Relative PPP", PppGap(diff, if diff > 0.0 then "Undervalued" else "Overvalued"))
    case None => FairValue("Relative PPP", Waiting("Waiting for CPI Data"))
  }

  /** The names of the missing spread inputs, US10Y before CDS. */
  function MissingSpreadInputs(us: Option<real>, cds: Option<real>): (r: seq<string>)
    ensures "US10Y" in r <==> us.None?
    ensures "CDS" in r <==> cds.None?
    ensures |r| <= 2
  {
    (if us.None? then ["US10Y"] else []) + (if cds.None? then ["CDS"] else [])
  }

  /** Sovereign spread: fair yield = US 10Y + CDS/100; the current value must be a number. */
  function SovereignSpread(values: map<string, Value>, current: Value): (r: Outcome<FairValue>)
    ensures var us := SafeFloat(InputOf(values, "us_10y"));
            var cds := SafeFloat(InputOf(values, "cds"));
            (us.Some? && cds.Some? ==>
               (r.Ok? <==> current.Num?) &&
               (current.Num? ==> r.value.payload == SpreadGap(us.value + cds.value / 100.0, current.n - (us.value + cds.value / 100.0)))) &&
            (us.None? || cds.None? ==>
               r == Ok(FairValue("Sovereign Spread", Waiting("Waiting for: " + Join(", ", MissingSpreadInputs(us, cds))))))
  {
    var us := SafeFloat(InputOf(values, "us_10y"));
    var cds := SafeFloat(InputOf(values, "cds"));
    if us.Some? && cds.Some? then
      var fair := us.value + cds.value / 100.0;
      if current.Num? then Ok(FairValue("Sovereign Spread", SpreadGap(fair, current.n - fair)))
      else Raised
    else
      Ok(FairValue("Sovereign Spread", Waiting("Waiting for: " + Join(", ", MissingSpreadInputs(us, cds)))))
  }

  /** Equity risk premium: earnings yield 100/PE minus the 10-year yield, only for a positive PE. */
  function ErpYield(values: map<string, Value>): (r: FairValue)
    ensures r.model == "Equity Risk Premium"
    ensures var rf := SafeFloat(InputOf(values, "tr_10y"));
            var pe := SafeFloat(InputOf(values, "pe"));
            (r.payload.ErpValue? <==> rf.Some? && pe.Some? && pe.value > 0.0) &&
            (r.payload.ErpValue? ==> r.payload.erp == 100.0 / pe.value - rf.value) &&
            (!r.payload.ErpValue? ==> r.payload == Waiting("Waiting for PE/Rates"))
  {
    var rf := SafeFloat(InputOf(values, "tr_10y"));
    var pe := SafeFloat(InputOf(values, "pe"));
    if rf.Some? && pe.Some? && pe.value != 0.0 && pe.value > 0.0 then
      FairValue("Equity Risk Premium", ErpValue(100.0 / pe.value - rf.value))
    else FairValue("Equity Risk Premium", Waiting("Waiting for PE/Rates"))
  }

  /** The model dispatch after the inputs are gathered; unknown models give None. */
  function ApplyModel(model: string, values: map<string, Value>, current: Value): (r: Outcome<Option<FairValue>>)
    ensures model != "PPP" && model != "SOVEREIGN_SPREAD" && model != "ERP_YIELD" ==> r == Ok(None)
    ensures r.Raised? ==> model == "SOVEREIGN_SPREAD" && !current.Num?
  {
    if model == "PPP" then Ok(Some(Ppp(values)))
    else if model == "SOVEREIGN_SPREAD" then
      match SovereignSpread(values, current)
      case Ok(v) => Ok(Some(v))
      case Raised => Raised
    else if model == "ERP_YIELD" then Ok(Some(ErpYield(values)))
    else Ok(None)
  }

  /** compute_fair_value as a function of the registry, the snapshots, the name and the current value. */
  function FairValueSpec(reg: seq<Registered>, up: Upstream, key: string, current: Value): (r: Outcome<Option<FairValue>>)
    ensures !IsRegistered(reg, key) ==> r == Ok(None)
    ensures r != Ok(None) ==> IsRegistered(reg, key) && Lookup(reg, key).value.valuation.Some?
  {
    match ResolveEntity(reg, key)
    case None => Ok(None)
    case Some(entity) =>
      match entity.entry.valuation
      case None => Ok(None)
      case Some(cfg) =>
        match InputValues(reg, up, cfg.inputs)
        case Raised => Raised
        case Ok(values) => ApplyModel(cfg.model, values, current)
  }

  method ComputeFairValue(reg: seq<Registered>, up: Upstream, key: string, current: Value) returns (r: Outcome<Option<FairValue>>)
    ensures r == FairValueSpec(reg, up, key, current)
  {
    var entity := ResolveEntity(reg, key);
    if entity.None? || entity.value.entry.valuation.None? {
      return Ok(None);
    }
    var cfg := entity.value.entry.valuation.value;
    var values := CollectInputs(reg, up, cfg.inputs);
    if values.Raised? {
      return Raised;
    }
    r := ApplyModel(cfg.model, values.value, current);
  }

  // ----- properties --------------------------------------------------------

  /** Unknown names, entries without a model and unknown model kinds give no valuation. */
  lemma NoValuation(reg: seq<Registered>, up: Upstream, key: string, current: Value)
    requires !IsRegistered(reg, key)
          || Lookup(reg, key).value.valuation.None?
          || (var m := Lookup(reg, key).value.valuation.value.model;
              m != "PPP" && m != "SOVEREIGN_SPREAD" && m != "ERP_YIELD"
              && InputValues(reg, up, Lookup(reg, key).value.valuation.value.inputs).Ok?)
    ensures FairValueSpec(reg, up, key, current) == Ok(None)
  {
  }

  /** In the shipped registry no entry carries a model, so nothing is ever valued. */
  lemma ShippedRegistryValuesNothing(reg: seq<Registered>, up: Upstream, key: string, current: Value)
    requires forall r :: r in reg ==> r.entry.valuation.None?
    ensures FairValueSpec(reg, up, key, current) == Ok(None)
  {
    if IsRegistered(reg, key) {
      var i :| 0 <= i < |reg| && reg[i] == Registered(key, Lookup(reg, key).value);
      assert reg[i] in reg;
    }
  }

  /** The placeholder "N/A" does not parse as a number. */
  lemma PlaceholderIsNotANumber()
    ensures SafeFloat(Str(NA)) == None
  {
    StripTrimmed(NA);
    assert Find(NA, '.') == 3;
  }

  /** With both spread inputs present, the gap is measured from US 10Y + CDS/100. */
  lemma SpreadExample()
    ensures SovereignSpread(map["us_10y" := Num(4.0), "cds" := Num(250.0)], Num(30.0))
         == Ok(FairValue("Sovereign Spread", SpreadGap(6.5, 23.5)))
  {
  }

  /** With both spread inputs missing, the message names US10Y first, then CDS. */
  lemma MissingBothMessage()
    ensures Join(", ", MissingSpreadInputs(None, None)) == "US10Y, CDS"
  {
    assert MissingSpreadInputs(None, None) == ["US10Y", "CDS"];
  }
}
