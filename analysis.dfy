// get_entity_analysis (engine/resolver.py): the five analyses of one entity
// (anomaly, valuation, impact chain, seasonality, divergence), each run in
// its own try block so that a step that raises only leaves its own key out
// of the result. The fetchers and the clock's month are parameters.
module EntityAnalysis {
  import opened Wrappers
  import opened Values
  import opened Text
  import opened Registry
  import opened Resolver
  import opened Alerts
  import opened Valuation
  import opened Graph
  import opened Seasonality

  /** The result dictionary: a key is present only when its step produced something truthy. */
  datatype Analysis = Analysis(
    alert: Option<Alert>,
    valuation: Option<FairValue>,
    graph: Option<seq<Link>>,
    seasonality: Option<SeasonalProfile>,
    divergence: Option<Alert>)

  /** What fetching a symbol's ten years of monthly candles gives. */
  type LongHistoryFetch = string -> Outcome<seq<Candle>>

  // ----- the five steps ----------------------------------------------------

  /** Step 1: the sigma scanner on the key's own three-month history. */
  function AnomalyStep(history: HistoryFetch, key: string, current: Value): (r: Option<Alert>)
    ensures r.Some? <==> CheckAnomaly(current, [], history(key)).Ok? && CheckAnomaly(current, [], history(key)).value.Some?
    ensures r.Some? ==> r == CheckAnomaly(current, [], history(key)).value
  {
    match CheckAnomaly(current, [], history(key))
    case Ok(alert) => alert
    case Raised => None
  }

  /** Step 2: the fair-value model, when the entity has one and it does not raise. */
  function ValuationStep(reg: seq<Registered>, up: Upstream, key: string, current: Value): (r: Option<FairValue>)
    ensures r.Some? <==> FairValueSpec(reg, up, key, current).Ok? && FairValueSpec(reg, up, key, current).value.Some?
    ensures r.Some? ==> r == FairValueSpec(reg, up, key, current).value
  {
    match FairValueSpec(reg, up, key, current)
    case Ok(v) => v
    case Raised => None
  }

  /** Step 3: the impact chain, kept only when it is non-empty. */
  function GraphStep(reg: seq<Registered>, up: Upstream, history: HistoryFetch, key: string): (r: Option<seq<Link>>)
    ensures r.Some? ==> r.value != [] && ImpactChain(reg, up, history, key) == Ok(r.value)
    ensures ImpactChain(reg, up, history, key).Ok? && ImpactChain(reg, up, history, key).value != [] ==>
              r == Some(ImpactChain(reg, up, history, key).value)
  {
    match ImpactChain(reg, up, history, key)
    case Ok(chain) => if chain != [] then Some(chain) else None
    case Raised => None
  }

  /** The keys that get a seasonality profile: tickers (with '.' or '=') and four named majors. */
  predicate SeasonalKey(key: string)
  {
    Contains(key, ".") || Contains(key, "=") || key in ["usdtry", "eurtry", "xauusd", "bist100"]
  }

  /** `entity.get("technical_key") or entity.get("key")`, for a registered key; None when it is empty. */
  function SeasonalSymbol(reg: seq<Registered>, key: string): (r: Option<string>)
    ensures r.Some? ==> IsRegistered(reg, key) && r.value != ""
    ensures r.Some? && Lookup(reg, key).value.technicalKey.None? ==> r.value == key
  {
    match ResolveEntity(reg, key)
    case None => None
    case Some(entity) =>
      var sym := match entity.entry.technicalKey
                 case Some(tk) => if tk != "" then tk else entity.key
                 case None => entity.key;
      if sym != "" then Some(sym) else None
  }

  /** Step 4: the monthly seasonality of the entity's symbol. */
  function SeasonalityStep(reg: seq<Registered>, longHistory: LongHistoryFetch, currentMonth: int, key: string): (r: Option<SeasonalProfile>)
    ensures !SeasonalKey(key) || SeasonalSymbol(reg, key).None? ==> r.None?
    ensures r.Some? ==> var h := longHistory(SeasonalSymbol(reg, key).value);
                        h.Ok? && MonthlySeasonality(h.value, currentMonth) == Ok(r)
    ensures SeasonalKey(key) && SeasonalSymbol(reg, key).Some? ==>
              var h := longHistory(SeasonalSymbol(reg, key).value);
              h.Ok? && MonthlySeasonality(h.value, currentMonth).Ok? ==> r == MonthlySeasonality(h.value, currentMonth).value
  {
    if !SeasonalKey(key) then None
    else
      match SeasonalSymbol(reg, key)
      case None => None
      case Some(sym) =>
        match longHistory(sym)
        case Raised => None
        case Ok(candles) =>
          match MonthlySeasonality(candles, currentMonth)
          case Ok(s) => s
          case Raised => None
  }

  /** One related metric: the peer's level when it is registered and its value is truthy. */
  function Peer(reg: seq<Registered>, up: Upstream, name: string): (r: Outcome<map<string, Related>>)
    ensures r.Ok? ==> r.value.Keys <= {name}
    ensures r.Ok? && name in r.value ==>
              IsRegistered(reg, name) &&
              var level := GetCurrentLevel(name, Lookup(reg, name).value, up);
              level.Ok? && Values.Truthy(level.value.value) &&
              r.value[name] == Related(Some(level.value.value), Some(level.value.change))
    ensures !IsRegistered(reg, name) ==> r == Ok(map[])
    ensures IsRegistered(reg, name) ==>
              var level := GetCurrentLevel(name, Lookup(reg, name).value, up);
              (level.Raised? ==> r.Raised?) &&
              (level.Ok? && Values.Truthy(level.value.value) ==>
                 r == Ok(map[name := Related(Some(level.value.value), Some(level.value.change))])) &&
              (level.Ok? && !Values.Truthy(level.value.value) ==> r == Ok(map[]))
  {
    match ResolveEntity(reg, name)
    case None => Ok(map[])
    case Some(entity) =>
      match GetCurrentLevel(name, entity.entry, up)
      case Raised => Raised
      case Ok(level) =>
        if Values.Truthy(level.value) then Ok(map[name := Related(Some(level.value), Some(level.change))])
        else Ok(map[])
  }

  /** The related metrics: CDS for the lira, VIX for BIST 100, nothing for other keys. */
  function RelatedMetrics(reg: seq<Registered>, up: Upstream, key: string): (r: Outcome<map<string, Related>>)
    ensures key != "usdtry" && key != "bist100" ==> r == Ok(map[])
    ensures key == "usdtry" ==> r == Peer(reg, up, "cds")
    ensures key == "bist100" ==> r == Peer(reg, up, "vix")
  {
    if key == "usdtry" then Peer(reg, up, "cds")
    else if key == "bist100" then Peer(reg, up, "vix")
    else Ok(map[])
  }

  /** Step 5: the first divergence alert, when there is a related metric and a rule fires. */
  function DivergenceStep(reg: seq<Registered>, up: Upstream, key: string, change: Value): (r: Option<Alert>)
    ensures key != "usdtry" && key != "bist100" ==> r.None?
    ensures RelatedMetrics(reg, up, key).Raised? || RelatedMetrics(reg, up, key) == Ok(map[]) ==> r.None?
    ensures var rm := RelatedMetrics(reg, up, key);
            rm.Ok? && rm.value != map[] ==>
              var d := CheckDivergence(key, change, rm.value);
              (r.Some? <==> d.Ok? && d.value.Some?) &&
              (r.Some? ==> d.value.value != [] && r.value == d.value.value[0])
  {
    match RelatedMetrics(reg, up, key)
    case Raised => None
    case Ok(related) =>
      if related == map[] then None
      else
        match CheckDivergence(key, change, related)
        case Ok(Some(alerts)) => Some(alerts[0])
        case _ => None
  }

  /** get_entity_analysis(key, current_value, change_pct): every step, each isolated from the others. */
  function Analyze(reg: seq<Registered>, up: Upstream, history: HistoryFetch, longHistory: LongHistoryFetch,
                   currentMonth: int, key: string, current: Value, change: Value): (r: Analysis)
    ensures r.valuation.Some? ==> IsRegistered(reg, key) && Lookup(reg, key).value.valuation.Some?
    ensures !SeasonalKey(key) ==> r.seasonality.None?
    ensures key != "usdtry" && key != "bist100" ==> r.divergence.None?
  {
    Analysis(
      AnomalyStep(history, key, current),
      ValuationStep(reg, up, key, current),
      GraphStep(reg, up, history, key),
      SeasonalityStep(reg, longHistory, currentMonth, key),
      DivergenceStep(reg, up, key, change))
  }

  /** The orchestration: the five try blocks in order, each filling its own key. */
  method GetEntityAnalysis(reg: seq<Registered>, up: Upstream, history: HistoryFetch, longHistory: LongHistoryFetch,
                           currentMonth: int, key: string, current: Value, change: Value) returns (result: Analysis)
    ensures result == Analyze(reg, up, history, longHistory, currentMonth, key, current, change)
  {
    result := Analysis(None, None, None, None, None);
    var alert := RunAnomaly(history, key, current);
    result := result.(alert := alert);
    var valuation := RunValuation(reg, up, key, current);
    result := result.(valuation := valuation);
    var graph := RunGraph(reg, up, history, key);
    result := result.(graph := graph);
    var seasonality := RunSeasonality(reg, longHistory, currentMonth, key);
    result := result.(seasonality := seasonality);
    var divergence := RunDivergence(reg, up, key, change);
    result := result.(divergence := divergence);
  }

  /** Block 1: `if alert: result["alert"] = alert`. */
  method RunAnomaly(history: HistoryFetch, key: string, current: Value) returns (r: Option<Alert>)
    ensures r == AnomalyStep(history, key, current)
  {
    r := None;
    var alert := CheckAnomaly(current, [], history(key));
    if alert.Ok? && alert.value.Some? {
      r := alert.value;
    }
  }

  /** Block 2: `if val_data: result["valuation"] = val_data`. */
  method RunValuation(reg: seq<Registered>, up: Upstream, key: string, current: Value) returns (r: Option<FairValue>)
    ensures r == ValuationStep(reg, up, key, current)
  {
    r := None;
    var valData := ComputeFairValue(reg, up, key, current);
    if valData.Ok? && valData.value.Some? {
      r := valData.value;
    }
  }

  /** Block 3: `if chain: result["graph"] = chain`. */
  method RunGraph(reg: seq<Registered>, up: Upstream, history: HistoryFetch, key: string) returns (r: Option<seq<Link>>)
    ensures r == GraphStep(reg, up, history, key)
  {
    r := None;
    var chain := GetImpactChain(reg, up, history, key);
    if chain.Ok? && chain.value != [] {
      r := Some(chain.value);
    }
  }

  /** Block 4: the seasonality of the entity's symbol, for seasonal keys only. */
  method RunSeasonality(reg: seq<Registered>, longHistory: LongHistoryFetch, currentMonth: int, key: string) returns (r: Option<SeasonalProfile>)
    ensures r == SeasonalityStep(reg, longHistory, currentMonth, key)
  {
    r := None;
    if SeasonalKey(key) {
      var sym := SeasonalSymbol(reg, key);
      if sym.Some? {
        var candles := longHistory(sym.value);
        if candles.Ok? {
          var seas := GetMonthlySeasonality(candles.value, currentMonth);
          if seas.Ok? && seas.value.Some? {
            r := seas.value;
          }
        }
      }
    }
  }

  /** Block 5: the related metrics, then the first divergence alert. */
  method RunDivergence(reg: seq<Registered>, up: Upstream, key: string, change: Value) returns (r: Option<Alert>)
    ensures r == DivergenceStep(reg, up, key, change)
  {
    r := None;
    var related := RelatedMetrics(reg, up, key);
    if related.Ok? && related.value != map[] {
      var divAlerts := CheckDivergence(key, change, related.value);
      if divAlerts.Ok? && divAlerts.value.Some? {
        r := Some(divAlerts.value.value[0]);
      }
    }
  }

  // ----- blocks 4 and 5 as written ----------------------------------------

  /**
   * Block 4 as written: engine/seasonality.py:10 imports fetch_long_history,
   * which engine/market.py does not define, so the import of the seasonality
   * module raises ImportError for every seasonal key. The local import of
   * resolve_entity on the next line is never reached.
   */
  function SeasonalityStepAsWritten(key: string): (r: Outcome<Option<SeasonalProfile>>)
    ensures r.Ok? ==> r.value.None?
    ensures r.Raised? <==> SeasonalKey(key)
  {
    if SeasonalKey(key) then Raised else Ok(None)
  }

  /**
   * Block 5 as written: the import in block 4 makes resolve_entity a local
   * name of get_entity_analysis that is never bound, so the lira and BIST 100
   * branches raise UnboundLocalError before any related metric is read.
   */
  function DivergenceStepAsWritten(key: string): (r: Outcome<Option<Alert>>)
    ensures r.Ok? ==> r.value.None?
    ensures r.Raised? <==> key == "usdtry" || key == "bist100"
  {
    if key == "usdtry" || key == "bist100" then Raised else Ok(None)
  }

  /** A try block's key: what the step gave, or nothing when it raised. */
  function Caught<T>(o: Outcome<Option<T>>): (r: Option<T>)
    ensures r.Some? ==> o == Ok(r)
  {
    match o
    case Ok(v) => v
    case Raised => None
  }

  /** get_entity_analysis as the source runs it, with the two failing blocks. */
  function AnalyzeAsWritten(reg: seq<Registered>, up: Upstream, history: HistoryFetch,
                            key: string, current: Value): Analysis
  {
    Analysis(
      AnomalyStep(history, key, current),
      ValuationStep(reg, up, key, current),
      GraphStep(reg, up, history, key),
      Caught(SeasonalityStepAsWritten(key)),
      Caught(DivergenceStepAsWritten(key)))
  }

  /**
   * As written, no analysis ever carries a seasonality profile or a
   * divergence alert; the first three keys are those of the intended
   * orchestration.
   */
  lemma AsWrittenDropsSeasonalityAndDivergence(reg: seq<Registered>, up: Upstream, history: HistoryFetch,
                                               longHistory: LongHistoryFetch, currentMonth: int,
                                               key: string, current: Value, change: Value)
    ensures var a := AnalyzeAsWritten(reg, up, history, key, current);
            a.seasonality.None? && a.divergence.None? &&
            a == Analyze(reg, up, history, longHistory, currentMonth, key, current, change).(seasonality := None, divergence := None)
  {
  }

  // ----- properties --------------------------------------------------------

  /**
   * Isolation: the ten-year history and the clock feed only the seasonality
   * step; whatever they give (even a raising fetch), every other key of the
   * result is the same.
   */
  lemma LongHistoryOnlyFeedsSeasonality(reg: seq<Registered>, up: Upstream, history: HistoryFetch,
                                        long1: LongHistoryFetch, long2: LongHistoryFetch, m1: int, m2: int,
                                        key: string, current: Value, change: Value)
    ensures Analyze(reg, up, history, long1, m1, key, current, change).(seasonality := None)
         == Analyze(reg, up, history, long2, m2, key, current, change).(seasonality := None)
  {
  }

  /** A raising valuation model leaves out only the valuation. */
  lemma ValuationFailureIsIsolated(reg: seq<Registered>, up: Upstream, history: HistoryFetch, longHistory: LongHistoryFetch,
                                   currentMonth: int, key: string, current: Value, change: Value)
    requires FairValueSpec(reg, up, key, current).Raised?
    ensures var a := Analyze(reg, up, history, longHistory, currentMonth, key, current, change);
            a.valuation.None? &&
            a.alert == AnomalyStep(history, key, current) &&
            a.graph == GraphStep(reg, up, history, key) &&
            a.seasonality == SeasonalityStep(reg, longHistory, currentMonth, key) &&
            a.divergence == DivergenceStep(reg, up, key, change)
  {
  }

  /** Entries without a technical key are looked up for seasonality under their canonical key. */
  lemma SymbolIsCanonicalKey(reg: seq<Registered>, key: string)
    requires IsRegistered(reg, key) && key != ""
    requires Lookup(reg, key).value.technicalKey.None?
    ensures SeasonalSymbol(reg, key) == Some(key)
  {
  }

  /**
   * For the lira, the divergence is the hidden-stress rule on the CDS level:
   * with a numeric move and a numeric CDS change it fires exactly when the
   * lira is flat and CDS rises past 2%.
   */
  lemma LiraDivergence(reg: seq<Registered>, up: Upstream, change: real)
    requires IsRegistered(reg, "cds")
    requires var level := GetCurrentLevel("cds", Lookup(reg, "cds").value, up);
             level.Ok? && Values.Truthy(level.value.value) && level.value.change.Num?
    ensures var cdsChange := GetCurrentLevel("cds", Lookup(reg, "cds").value, up).value.change.n;
            var r := DivergenceStep(reg, up, "usdtry", Num(change));
            (r.Some? <==> -0.1 < change < 0.1 && cdsChange > 2.0) &&
            (r.Some? ==> r.value == DivergenceAlert("WARNING", "Hidden Stress: Lira flat but CDS spiking", cdsChange))
  {
    var level := GetCurrentLevel("cds", Lookup(reg, "cds").value, up).value;
    var related := map["cds" := Related(Some(level.value), Some(level.change))];
    assert RelatedMetrics(reg, up, "usdtry") == Ok(related);
    HiddenStressExactly(change, level.change.n, Some(level.value));
  }

  /**
   * The macro panel reports CDS without a change (None), so the lira's
   * divergence check can never fire on it: the comparison with None either
   * is not reached or raises.
   */
  lemma CdsWithoutChangeNeverDiverges(reg: seq<Registered>, up: Upstream, change: Value)
    requires IsRegistered(reg, "cds")
    requires var level := GetCurrentLevel("cds", Lookup(reg, "cds").value, up);
             level.Ok? && level.value.change == Null
    ensures DivergenceStep(reg, up, "usdtry", change).None?
  {
    var related := RelatedMetrics(reg, up, "usdtry");
    if related.Ok? && related.value != map[] {
      assert "cds" in related.value;
      assert ChangeOf(related.value["cds"]) == Null;
    }
  }

  /**
   * For BIST 100, the divergence is the fragile-rally rule on the VIX level:
   * with a numeric move and a numeric VIX change it fires exactly when the
   * index is up more than 1% and VIX more than 5%.
   */
  lemma BistDivergence(reg: seq<Registered>, up: Upstream, change: real)
    requires IsRegistered(reg, "vix")
    requires var level := GetCurrentLevel("vix", Lookup(reg, "vix").value, up);
             level.Ok? && Values.Truthy(level.value.value) && level.value.change.Num?
    ensures var vixChange := GetCurrentLevel("vix", Lookup(reg, "vix").value, up).value.change.n;
            var r := DivergenceStep(reg, up, "bist100", Num(change));
            (r.Some? <==> change > 1.0 && vixChange > 5.0) &&
            (r.Some? ==> r.value == DivergenceAlert("CAUTION", "Fragile Rally: BIST up despite Global Fear", vixChange))
  {
    var level := GetCurrentLevel("vix", Lookup(reg, "vix").value, up).value;
    var related := map["vix" := Related(Some(level.value), Some(level.change))];
    assert RelatedMetrics(reg, up, "bist100") == Ok(related);
    FragileRallyExactly(change, level.change.n, Some(level.value));
  }
}
