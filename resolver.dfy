// get_current_level (engine/resolver.py): find an entity's live value in the
// engine's upstream snapshots according to the entry's "source". Each
// snapshot is what the read-through `get_or_fetch` gave for its cache key
// (see Cache.TtlCache.GetOrFetch): the cached value, else the fetcher's
// result, else None when the fetcher raised.
module Resolver {
  import opened Wrappers
  import opened Values
  import opened Text
  import opened Registry

  /** A flat JSON object. A key that is absent reads as None. */
  type Dict = map<string, Value>

  function Get(d: Dict, k: string): Value
  {
    if k in d then d[k] else Null
  }

  /** The macro panel: policy rates, bond yields and the CDS record. Absent parts read as empty. */
  datatype MacroSnapshot = MacroSnapshot(policyRates: Dict, bonds: Dict, cds: Option<Dict>)

  /** The read-through result for each cache key the resolver consults; None is a falsy result. */
  datatype Upstream = Upstream(
    market: Option<map<string, Dict>>,
    macro: Option<MacroSnapshot>,
    turkeyMacro: Option<seq<Dict>>,
    erp: Option<Dict>,
    cbrt: Option<Dict>,
    goldCorr: Option<Dict>,
    scorecard: Option<Dict>,
    banking: Option<Dict>,
    sentiment: Option<Dict>,
    trade: Option<Dict>)

  /** The returned triple (value, unit, change_pct); each part may be None. */
  datatype Level = Level(value: Value, unit: Value, change: Value)

  const NoLevel: Level := Level(Null, Null, Null)

  /** Python truthiness of a dictionary result: present and non-empty. */
  predicate Truthy<V>(d: Option<map<string, V>>)
  {
    d.Some? && d.value != map[]
  }

  /** `tech_key in d`: None is never a key. */
  predicate HasKey<V>(d: map<string, V>, k: Option<string>)
  {
    k.Some? && k.value in d
  }

  /** `entity_data.get("unit")`. */
  function UnitOf(e: Entry): Value
  {
    match e.unit
    case Some(u) => Str(u)
    case None => Null
  }

  /** `tech_key` as a value: None when the entry has no technical key. */
  function KeyValue(k: Option<string>): Value
  {
    match k
    case Some(s) => Str(s)
    case None => Null
  }

  /** Bond fields quoted in basis points. */
  predicate InBasisPoints(k: string)
  {
    k == "spread" || k == "tr_yield_curve" || k == "risk_premium"
  }

  // ----- one function per source branch; None falls through --------------

  /** Branch 1: the market snapshot, keyed by ticker. */
  function MarketLevel(e: Entry, market: Option<map<string, Dict>>): (r: Option<Level>)
    ensures r.Some? <==> Truthy(market) && HasKey(market.value, e.technicalKey)
    ensures r.Some? ==> var m := market.value[e.technicalKey.value];
                        r.value == Level(Get(m, "price"), UnitOf(e), Get(m, "change_pct"))
  {
    if Truthy(market) && HasKey(market.value, e.technicalKey) then
      var m := market.value[e.technicalKey.value];
      Some(Level(Get(m, "price"), UnitOf(e), Get(m, "change_pct")))
    else None
  }

  /** The bond branch: basis-point fields are scaled by 100 when numeric. */
  function BondLevel(k: string, v: Value): (r: Level)
    ensures r.change == Null
    ensures InBasisPoints(k) ==> r.unit == Str("bps") && (v.Num? ==> r.value == Num(v.n * 100.0)) && (!v.Num? ==> r.value == v)
    ensures !InBasisPoints(k) ==> r == Level(v, Str("%"), Null)
  {
    if InBasisPoints(k) then Level(if v.Num? then Num(v.n * 100.0) else v, Str("bps"), Null)
    else Level(v, Str("%"), Null)
  }

  /** Branch 2: policy rates, then bonds, then the CDS record. */
  function MacroLevel(tk: Option<string>, macro: Option<MacroSnapshot>): (r: Option<Level>)
    ensures macro.None? ==> r.None?
    ensures macro.Some? && HasKey(macro.value.policyRates, tk) ==>
              r == Some(Level(macro.value.policyRates[tk.value], Str("%"), Null))
    ensures macro.Some? && !HasKey(macro.value.policyRates, tk) && HasKey(macro.value.bonds, tk) ==>
              r == Some(BondLevel(tk.value, macro.value.bonds[tk.value]))
    ensures macro.Some? && !HasKey(macro.value.policyRates, tk) && !HasKey(macro.value.bonds, tk) ==>
              (r.Some? <==> tk == Some("cds") && Truthy(macro.value.cds)) &&
              (r.Some? ==> r.value == Level(Get(macro.value.cds.value, "val"), Str("bps"), Null))
  {
    match macro
    case None => None
    case Some(m) =>
      if HasKey(m.policyRates, tk) then Some(Level(m.policyRates[tk.value], Str("%"), Null))
      else if HasKey(m.bonds, tk) then Some(BondLevel(tk.value, m.bonds[tk.value]))
      else if tk == Some("cds") && Truthy(m.cds) then Some(Level(Get(m.cds.value, "val"), Str("bps"), Null))
      else None
  }

  /** An item of the Turkey-macro list matches on the entity name or on the technical key. */
  predicate ItemMatches(item: Dict, entityKey: string, tk: Option<string>)
  {
    Get(item, "key") == Str(entityKey) || Get(item, "key") == KeyValue(tk)
  }

  /** Branch 3: the first matching item of the Turkey-macro list. */
  function TurkeyMacroScan(items: seq<Dict>, entityKey: string, tk: Option<string>): (r: Option<Level>)
    ensures r.None? <==> forall i :: 0 <= i < |items| ==> !ItemMatches(items[i], entityKey, tk)
    ensures r.Some? ==> exists i :: 0 <= i < |items| && ItemMatches(items[i], entityKey, tk)
                          && (forall j :: 0 <= j < i ==> !ItemMatches(items[j], entityKey, tk))
                          && r.value == Level(Get(items[i], "last"), Get(items[i], "unit"), Null)
  {
    if items == [] then None
    else if ItemMatches(items[0], entityKey, tk) then
      Some(Level(Get(items[0], "last"), Get(items[0], "unit"), Null))
    else
      var r := TurkeyMacroScan(items[1..], entityKey, tk);
      assert forall i :: 0 < i < |items| ==> items[i] == items[1..][i - 1];
      if r.Some? then
        var i :| 0 <= i < |items[1..]| && ItemMatches(items[1..][i], entityKey, tk)
                 && (forall j :: 0 <= j < i ==> !ItemMatches(items[1..][j], entityKey, tk))
                 && r.value == Level(Get(items[1..][i], "last"), Get(items[1..][i], "unit"), Null);
        assert ItemMatches(items[i + 1], entityKey, tk);
        r
      else r
  }

  function TurkeyMacroLevel(entityKey: string, tk: Option<string>, tm: Option<seq<Dict>>): (r: Option<Level>)
    ensures r.Some? ==> tm.Some? && tm.value != []
    ensures tm.Some? ==> r == TurkeyMacroScan(tm.value, entityKey, tk)
  {
    match tm
    case Some(items) => TurkeyMacroScan(items, entityKey, tk)
    case None => None
  }

  /** Branch 4: the equity-risk record, then the bond yields of the macro panel. */
  function EquityRiskLevel(e: Entry, erp: Option<Dict>, macro: Option<MacroSnapshot>): (r: Option<Level>)
    ensures Truthy(erp) && HasKey(erp.value, e.technicalKey) ==>
              r == Some(Level(erp.value[e.technicalKey.value], Str(e.unit.GetOr("%")), Null))
    ensures !(Truthy(erp) && HasKey(erp.value, e.technicalKey)) ==>
              (r.Some? <==> macro.Some? && HasKey(macro.value.bonds, e.technicalKey)) &&
              (r.Some? ==> r.value == Level(macro.value.bonds[e.technicalKey.value], Str("%"), Null))
  {
    var tk := e.technicalKey;
    if Truthy(erp) && HasKey(erp.value, tk) then Some(Level(erp.value[tk.value], Str(e.unit.GetOr("%")), Null))
    else if macro.Some? && HasKey(macro.value.bonds, tk) then Some(Level(macro.value.bonds[tk.value], Str("%"), Null))
    else None
  }

  /** Branch 5: the CBRT tracker answers for the policy rate and the next meeting. */
  function CbrtLevel(tk: Option<string>, cbrt: Option<Dict>): (r: Option<Level>)
    ensures r.Some? <==> Truthy(cbrt) && tk in {Some("aofm"), Some("policy_rate"), Some("next_meeting")}
    ensures r.Some? && tk != Some("next_meeting") ==> r.value == Level(Get(cbrt.value, "current_rate"), Str("%"), Null)
    ensures r.Some? && tk == Some("next_meeting") ==> r.value == Level(Get(cbrt.value, "next_meeting"), Str(""), Null)
  {
    if !Truthy(cbrt) then None
    else if tk == Some("aofm") || tk == Some("policy_rate") then Some(Level(Get(cbrt.value, "current_rate"), Str("%"), Null))
    else if tk == Some("next_meeting") then Some(Level(Get(cbrt.value, "next_meeting"), Str(""), Null))
    else None
  }

  /** Branch 6: the gold correlation and the scorecard composite. */
  function GoldCorrLevel(tk: Option<string>, gc: Option<Dict>): (r: Option<Level>)
    ensures r.Some? <==> Truthy(gc) && (tk == Some("gold_corr") || tk == Some("composite"))
    ensures r.Some? ==> r.value == Level(Get(gc.value, "corr_usd"), Str(""), Null)
  {
    if Truthy(gc) && (tk == Some("gold_corr") || tk == Some("composite")) then
      Some(Level(Get(gc.value, "corr_usd"), Str(""), Null))
    else None
  }

  function ScorecardLevel(tk: Option<string>, sc: Option<Dict>): (r: Option<Level>)
    ensures r.Some? <==> Truthy(sc) && tk == Some("composite")
    ensures r.Some? ==> r.value == Level(Get(sc.value, "composite"), Str("pts"), Null)
  {
    if Truthy(sc) && tk == Some("composite") then Some(Level(Get(sc.value, "composite"), Str("pts"), Null))
    else None
  }

  /** Branch 7: the banking monitor, keyed directly. */
  function BankingLevel(e: Entry, bm: Option<Dict>): (r: Option<Level>)
    ensures r.Some? <==> Truthy(bm) && HasKey(bm.value, e.technicalKey)
    ensures r.Some? ==> r.value == Level(bm.value[e.technicalKey.value], UnitOf(e), Null)
  {
    if Truthy(bm) && HasKey(bm.value, e.technicalKey) then Some(Level(bm.value[e.technicalKey.value], UnitOf(e), Null))
    else None
  }

  /** The sentiment field a technical key names: "<key>_score" unless it already ends so. */
  function SentimentField(tk: string): (r: string)
    ensures EndsWith(r, "_score")
    ensures EndsWith(tk, "_score") ==> r == tk
  {
    if EndsWith(tk, "_score") then tk
    else
      assert (tk + "_score")[|tk + "_score"| - |"_score"|..] == "_score";
      tk + "_score"
  }

  /** Branch 8: sentiment scores; a missing technical key raises (`None.endswith`). */
  function SentimentLevel(e: Entry, sent: Option<Dict>): (r: Outcome<Option<Level>>)
    ensures r.Raised? <==> Truthy(sent) && e.technicalKey.None?
  {
    if !Truthy(sent) then Ok(None)
    else match e.technicalKey
      case None => Raised
      case Some(tk) =>
        var mapped := SentimentField(tk);
        if mapped in sent.value then Ok(Some(Level(sent.value[mapped], UnitOf(e), Null)))
        else if tk in sent.value then Ok(Some(Level(sent.value[tk], UnitOf(e), Null)))
        else Ok(None)
  }

  /** Branch 9: trade totals answer only for "total_exports". */
  function TradeLevel(e: Entry, trade: Option<Dict>): (r: Option<Level>)
    ensures r.Some? <==> Truthy(trade) && e.technicalKey == Some("total_exports")
    ensures r.Some? ==> r.value == Level(Get(trade.value, "total_exports"), UnitOf(e), Null)
  {
    if Truthy(trade) && e.technicalKey == Some("total_exports") then
      Some(Level(Get(trade.value, "total_exports"), UnitOf(e), Null))
    else None
  }

  /** The sources with a branch of their own. */
  predicate KnownSource(s: string)
  {
    s == "market" || s == "macro" || s == "EVDS+CALC" || s == "equity_risk" || s == "cbrt"
    || s == "gold_corr" || s == "scorecard" || s == "banking" || s == "sentiment" || s == "trade"
  }

  /** get_current_level: the branch of the entry's source, else (None, None, None). */
  function GetCurrentLevel(entityKey: string, e: Entry, up: Upstream): (r: Outcome<Level>)
    ensures !KnownSource(e.source) ==> r == Ok(NoLevel)
    ensures r.Raised? ==> e.source == "sentiment"
    ensures e.source == "market" ==> r == Ok(MarketLevel(e, up.market).GetOr(NoLevel))
  {
    var tk := e.technicalKey;
    match e.source
    case "market" => Ok(MarketLevel(e, up.market).GetOr(NoLevel))
    case "macro" =>
      (match MacroLevel(tk, up.macro)
       case Some(l) => Ok(l)
       case None => Ok(TurkeyMacroLevel(entityKey, tk, up.turkeyMacro).GetOr(NoLevel)))
    case "EVDS+CALC" => Ok(TurkeyMacroLevel(entityKey, tk, up.turkeyMacro).GetOr(NoLevel))
    case "equity_risk" => Ok(EquityRiskLevel(e, up.erp, up.macro).GetOr(NoLevel))
    case "cbrt" => Ok(CbrtLevel(tk, up.cbrt).GetOr(NoLevel))
    case "gold_corr" => Ok(GoldCorrLevel(tk, up.goldCorr).GetOr(NoLevel))
    case "scorecard" => Ok(ScorecardLevel(tk, up.scorecard).GetOr(NoLevel))
    case "banking" => Ok(BankingLevel(e, up.banking).GetOr(NoLevel))
    case "sentiment" =>
      (match SentimentLevel(e, up.sentiment)
       case Raised => Raised
       case Ok(l) => Ok(l.GetOr(NoLevel)))
    case "trade" => Ok(TradeLevel(e, up.trade).GetOr(NoLevel))
    case _ => Ok(NoLevel)
  }

  // ----- properties --------------------------------------------------------

  /** A policy-rate hit wins over a bond of the same name, with unit "%" and no change. */
  lemma MacroPolicyRateFirst(entityKey: string, e: Entry, up: Upstream)
    requires e.source == "macro" && up.macro.Some? && HasKey(up.macro.value.policyRates, e.technicalKey)
    ensures GetCurrentLevel(entityKey, e, up) == Ok(Level(up.macro.value.policyRates[e.technicalKey.value], Str("%"), Null))
  {
  }

  /** Bonds answer only when the policy rates do not; spreads come back in basis points. */
  lemma MacroBondScaled(entityKey: string, e: Entry, up: Upstream, x: real)
    requires e.source == "macro" && up.macro.Some? && e.technicalKey == Some("spread")
    requires "spread" !in up.macro.value.policyRates && up.macro.value.bonds.Keys == {"spread"}
    requires up.macro.value.bonds["spread"] == Num(x)
    ensures GetCurrentLevel(entityKey, e, up) == Ok(Level(Num(x * 100.0), Str("bps"), Null))
  {
  }

  /** When the macro panel has nothing, a macro entry is looked up in the Turkey-macro list. */
  lemma MacroFallsBackToTurkeyMacro(entityKey: string, e: Entry, up: Upstream)
    requires e.source == "macro" && MacroLevel(e.technicalKey, up.macro).None?
    ensures GetCurrentLevel(entityKey, e, up) == Ok(TurkeyMacroLevel(entityKey, e.technicalKey, up.turkeyMacro).GetOr(NoLevel))
  {
  }

  /**
   * Without a technical key no source branch can answer except the
   * Turkey-macro match on the entity's own name, and the sentiment branch
   * raises as soon as its snapshot is non-empty.
   */
  lemma MissingTechnicalKey(entityKey: string, e: Entry, up: Upstream)
    requires e.technicalKey.None?
    ensures e.source != "sentiment" && e.source != "macro" && e.source != "EVDS+CALC" ==>
              GetCurrentLevel(entityKey, e, up) == Ok(NoLevel)
    ensures (e.source == "macro" || e.source == "EVDS+CALC") ==>
              GetCurrentLevel(entityKey, e, up) == Ok(TurkeyMacroLevel(entityKey, None, up.turkeyMacro).GetOr(NoLevel))
    ensures e.source == "sentiment" ==>
              (GetCurrentLevel(entityKey, e, up).Raised? <==> Truthy(up.sentiment))
  {
  }

  /** Sentiment keys are tried as "<key>_score" first, then as given. */
  lemma SentimentLookupOrder(entityKey: string, e: Entry, up: Upstream, tk: string)
    requires e.source == "sentiment" && e.technicalKey == Some(tk) && Truthy(up.sentiment)
    ensures var sent := up.sentiment.value;
            var mapped := SentimentField(tk);
            GetCurrentLevel(entityKey, e, up) ==
              Ok(if mapped in sent then Level(sent[mapped], UnitOf(e), Null)
                 else if tk in sent then Level(sent[tk], UnitOf(e), Null)
                 else NoLevel)
  {
  }

  lemma SentimentFieldExamples()
    ensures SentimentField("panic") == "panic_score"
    ensures SentimentField("greed_score") == "greed_score"
  {
    assert EndsWith("greed_score", "_score");
    assert !EndsWith("panic", "_score");
  }
}
