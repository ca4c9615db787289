// compute_scorecard (engine/scorecard.py): six macro readings are each
// scored on a fixed ladder between -1 (risk-off) and +1 (risk-on), and the
// scores present are averaged with fixed weights into a composite between
// -100 and +100. The four input snapshots are parameters; the formatted
// "value" strings are kept as the raw readings.
module Scorecard {
  import opened Wrappers
  import opened Values
  import opened Text
  import opened Numbers
  import opened Analytics
  import opened Resolver

  // ----- reading inputs ----------------------------------------------------

  /**
   * `_safe_float`: None and "N/A" give None; numbers pass; text is parsed
   * after turning ',' into '.' and dropping '%', and unparsable text gives None.
   */
  function SafeFloat(v: Value): (r: Option<real>)
    ensures v == Null || v == Str(NA) ==> r.None?
    ensures v.Num? ==> r == Some(v.n)
  {
    match v
    case Null => None
    case Num(x) => Some(x)
    case Str(s) => if s == NA then None else ParseFloat(RemoveChar(ReplaceChar(s, ',', '.'), '%'))
  }

  /** A decimal comma reads as a decimal point. */
  lemma DecimalComma(ints: string, fracs: string)
    requires AllDigits(ints) && AllDigits(fracs) && |ints| > 0
    ensures SafeFloat(Str(ints + "," + fracs)) == Some(DecimalValue(ints, fracs))
  {
    var s := ints + "," + fracs;
    var t := ints + "." + fracs;
    CommaToPoint(ints, fracs);
    NoPercentInDecimal(ints, fracs);
    RemoveAbsent(t, '%');
    assert s != NA by {
      assert IsDigit(s[0]);
    }
    ParseDecimalParts(ints, fracs);
  }

  lemma NoPercentInDecimal(ints: string, fracs: string)
    requires AllDigits(ints) && AllDigits(fracs)
    ensures '%' !in ints + "." + fracs
  {
    var t := ints + "." + fracs;
    forall i | 0 <= i < |t|
      ensures t[i] != '%'
    {
      if i < |ints| {
        assert t[i] == ints[i];
      } else if i > |ints| {
        assert t[i] == fracs[i - |ints| - 1];
      }
    }
  }

  /** A trailing percent sign is ignored. */
  lemma PercentSuffix(n: nat)
    ensures SafeFloat(Str(NatToDigits(n) + "%")) == Some(n as real)
  {
    var d := NatToDigits(n);
    var s := d + "%";
    assert forall i :: 0 <= i < |d| ==> s[i] == d[i] && IsDigit(d[i]);
    assert ReplaceChar(s, ',', '.') == s;
    RemoveLast(d, '%');
    assert s != NA by {
      if |s| == 3 {
        assert IsDigit(s[0]);
      }
    }
    ParseNat(n);
  }

  lemma {:induction false} RemoveAbsent(s: string, c: char)
    requires c !in s
    ensures RemoveChar(s, c) == s
  {
    if s != [] {
      assert s[0] in s;
      assert forall x :: x in s[1..] ==> x in s;
      RemoveAbsent(s[1..], c);
    }
  }

  lemma {:induction false} RemoveLast(d: string, c: char)
    requires c !in d
    ensures RemoveChar(d + [c], c) == d
  {
    if d == [] {
      assert [c][1..] == [];
    } else {
      assert (d + [c])[1..] == d[1..] + [c];
      assert d[0] in d;
      assert forall x :: x in d[1..] ==> x in d;
      RemoveLast(d[1..], c);
      assert d == [d[0]] + d[1..];
    }
  }

  /** The index of the first item whose "key" is `key`, or the length when there is none. */
  function FirstWithKey(items: seq<Dict>, key: string): (i: nat)
    ensures i <= |items|
    ensures i < |items| ==> Get(items[i], "key") == Str(key)
    ensures forall j :: 0 <= j < i ==> Get(items[j], "key") != Str(key)
  {
    if items == [] then 0
    else if Get(items[0], "key") == Str(key) then 0
    else 1 + FirstWithKey(items[1..], key)
  }

  /** `_find_metric`: the parsed "last" of the first item with that key; None for a falsy store or no match. */
  function FindMetric(store: Option<seq<Dict>>, key: string): (r: Option<real>)
    ensures store.None? || store.value == [] ==> r.None?
    ensures store.Some? && FirstWithKey(store.value, key) < |store.value| ==>
              r == SafeFloat(Get(store.value[FirstWithKey(store.value, key)], "last"))
    ensures store.Some? && (forall j :: 0 <= j < |store.value| ==> Get(store.value[j], "key") != Str(key)) ==> r.None?
  {
    match store
    case None => None
    case Some(items) =>
      var i := FirstWithKey(items, key);
      if i < |items| then SafeFloat(Get(items[i], "last")) else None
  }

  // ----- the six ladders ---------------------------------------------------

  /** One scored component: its score, the reading it was scored on and the signal text. */
  datatype Component = Component(score: real, reading: real, signal: string)

  /** The scores the ladders use. */
  predicate AllowedScore(s: real)
  {
    s == -1.0 || s == -0.8 || s == -0.5 || s == -0.3 || s == 0.3 || s == 0.5 || s == 1.0
  }

  /** Yield curve on TR 10Y - TR 2Y: steep above 2, flat above 0, inverted above -1, else deep inversion. */
  function YieldCurveLadder(spread: real): (r: Component)
    ensures AllowedScore(r.score) && r.reading == spread
    ensures r.score == 1.0 <==> spread > 2.0
    ensures r.score == 0.3 <==> 0.0 < spread <= 2.0
    ensures r.score == -0.5 <==> -1.0 < spread <= 0.0
    ensures r.score == -1.0 <==> spread <= -1.0
  {
    if spread > 2.0 then Component(1.0, spread, "STEEP (Normal)")
    else if spread > 0.0 then Component(0.3, spread, "FLAT (Watch)")
    else if spread > -1.0 then Component(-0.5, spread, "INVERTED (Warning)")
    else Component(-1.0, spread, "DEEP INVERSION (Danger)")
  }

  /** Real carry: strong above 5, positive above 0, negative above -3, else capital-flight risk. */
  function RealCarryLadder(carry: real): (r: Component)
    ensures AllowedScore(r.score) && r.reading == carry
    ensures r.score == 1.0 <==> carry > 5.0
    ensures r.score == 0.5 <==> 0.0 < carry <= 5.0
    ensures r.score == -0.3 <==> -3.0 < carry <= 0.0
    ensures r.score == -1.0 <==> carry <= -3.0
  {
    if carry > 5.0 then Component(1.0, carry, "STRONG CARRY")
    else if carry > 0.0 then Component(0.5, carry, "POSITIVE CARRY")
    else if carry > -3.0 then Component(-0.3, carry, "NEGATIVE CARRY")
    else Component(-1.0, carry, "CAPITAL FLIGHT RISK")
  }

  /** PPI-CPI gap, with strict lower-than thresholds: below -5, below 0, below 5, else margin squeeze. */
  function PpiCpiLadder(gap: real): (r: Component)
    ensures AllowedScore(r.score) && r.reading == gap
    ensures r.score == 0.5 <==> gap < -5.0
    ensures r.score == 0.3 <==> -5.0 <= gap < 0.0
    ensures r.score == -0.3 <==> 0.0 <= gap < 5.0
    ensures r.score == -1.0 <==> gap >= 5.0
  {
    if gap < -5.0 then Component(0.5, gap, "DEFLATIONARY (Margins expanding)")
    else if gap < 0.0 then Component(0.3, gap, "HEALTHY")
    else if gap < 5.0 then Component(-0.3, gap, "COST PRESSURE")
    else Component(-1.0, gap, "MARGIN SQUEEZE")
  }

  /** Equity risk premium: cheap above 3, fair above 0, bonds attractive above -5, else expensive. */
  function ErpLadder(erp: real): (r: Component)
    ensures AllowedScore(r.score) && r.reading == erp
    ensures r.score == 1.0 <==> erp > 3.0
    ensures r.score == 0.3 <==> 0.0 < erp <= 3.0
    ensures r.score == -0.5 <==> -5.0 < erp <= 0.0
    ensures r.score == -1.0 <==> erp <= -5.0
  {
    if erp > 3.0 then Component(1.0, erp, "STOCKS CHEAP")
    else if erp > 0.0 then Component(0.3, erp, "STOCKS FAIR")
    else if erp > -5.0 then Component(-0.5, erp, "BONDS ATTRACTIVE")
    else Component(-1.0, erp, "STOCKS EXPENSIVE")
  }

  /** CDS in basis points: low below 200, moderate below 350, elevated below 500, else distressed. */
  function CdsLadder(cds: real): (r: Component)
    ensures AllowedScore(r.score) && r.reading == cds
    ensures r.score == 1.0 <==> cds < 200.0
    ensures r.score == 0.3 <==> 200.0 <= cds < 350.0
    ensures r.score == -0.5 <==> 350.0 <= cds < 500.0
    ensures r.score == -1.0 <==> cds >= 500.0
  {
    if cds < 200.0 then Component(1.0, cds, "LOW RISK")
    else if cds < 350.0 then Component(0.3, cds, "MODERATE")
    else if cds < 500.0 then Component(-0.5, cds, "ELEVATED")
    else Component(-1.0, cds, "DISTRESSED")
  }

  /** Gold's correlation with USD/TRY: a pure FX hedge above 0.85, mixed above 0.5, else a commodity play. */
  function GoldCorrLadder(corr: real): (r: Component)
    ensures AllowedScore(r.score) && r.reading == corr
    ensures r.score == -0.8 <==> corr > 0.85
    ensures r.score == -0.3 <==> 0.5 < corr <= 0.85
    ensures r.score == 0.5 <==> corr <= 0.5
  {
    if corr > 0.85 then Component(-0.8, corr, "PURE FX HEDGE (Lira fear)")
    else if corr > 0.5 then Component(-0.3, corr, "MIXED DRIVER")
    else Component(0.5, corr, "COMMODITY PLAY (Healthy)")
  }

  // ----- the readings from the snapshots ------------------------------------

  /** The four snapshots the scorecard reads; None is a falsy result. */
  datatype Inputs = Inputs(turkeyMacro: Option<seq<Dict>>, macro: Option<MacroSnapshot>, erp: Option<Dict>, goldCorr: Option<Dict>)

  /** The bonds block of a truthy macro snapshot, else an empty dictionary. */
  function Bonds(ins: Inputs): Dict
  {
    if ins.macro.Some? then ins.macro.value.bonds else map[]
  }

  /** The policy-rates block of a truthy macro snapshot, else an empty dictionary. */
  function Rates(ins: Inputs): Dict
  {
    if ins.macro.Some? then ins.macro.value.policyRates else map[]
  }

  /**
   * The macro panel's CDS as the scorecard reads it: the "value" field.
   * The macro panel stores the figure under "val", so this never finds it.
   */
  function MacroCdsAsWritten(macro: Option<MacroSnapshot>): (r: Option<real>)
    ensures macro.Some? && macro.value.cds.Some? ==> r == SafeFloat(Get(macro.value.cds.value, "value"))
    ensures macro.None? || macro.value.cds.None? ==> r.None?
  {
    if macro.Some? then SafeFloat(Get(macro.value.cds.GetOr(map[]), "value")) else None
  }

  /** The macro panel's CDS read from "val", the field the macro panel writes. */
  function MacroCds(macro: Option<MacroSnapshot>): (r: Option<real>)
    ensures macro.Some? && macro.value.cds.Some? ==> r == SafeFloat(Get(macro.value.cds.value, "val"))
    ensures macro.None? || macro.value.cds.None? ==> r.None?
  {
    if macro.Some? then SafeFloat(Get(macro.value.cds.GetOr(map[]), "val")) else None
  }

  /** The CDS record as the macro panel builds it: "val", "source" and "label". */
  predicate PanelCdsRecord(d: Dict)
  {
    d.Keys == {"val", "source", "label"}
  }

  /** As written, a panel-shaped CDS record is never read, whatever its figure. */
  lemma MacroCdsAsWrittenMisses(macro: MacroSnapshot)
    requires macro.cds.Some? && PanelCdsRecord(macro.cds.value)
    ensures MacroCdsAsWritten(Some(macro)).None?
  {
    assert "value" !in macro.cds.value;
  }

  /** Read from "val", a panel-shaped record with a numeric figure is scored. */
  lemma MacroCdsReadsPanel(macro: MacroSnapshot, figure: real)
    requires macro.cds.Some? && PanelCdsRecord(macro.cds.value) && macro.cds.value["val"] == Num(figure)
    ensures MacroCds(Some(macro)) == Some(figure)
  {
  }

  /** The numbers the six ladders are scored on, each None when absent or unparsable. */
  datatype Readings = Readings(
    tr10: Option<real>, tr2: Option<real>,
    deposit: Option<real>, cpi: Option<real>, fed: Option<real>, usCpi: Option<real>,
    ppiCpiGap: Option<real>, erp: Option<real>,
    cdsPrimary: Option<real>, cdsMacro: Option<real>, corrUsd: Option<real>)

  /**
   * The readings as compute_scorecard takes them from its snapshots: yields
   * and rates from the macro snapshot, CPI, the PPI-CPI gap and CDS from the
   * Turkey-macro list, the premium and the correlation from their own
   * snapshots when those are truthy. The fallback CDS is read from the
   * panel's "value" field, as written (see MacroCdsAsWritten).
   */
  function ReadingsOf(ins: Inputs): (r: Readings)
    ensures ins.macro.None? ==> r.tr10.None? && r.tr2.None? && r.deposit.None? && r.fed.None? && r.usCpi.None? && r.cdsMacro.None?
    ensures ins.turkeyMacro.None? ==> r.cpi.None? && r.ppiCpiGap.None? && r.cdsPrimary.None?
    ensures !Resolver.Truthy(ins.erp) ==> r.erp.None?
    ensures !Resolver.Truthy(ins.goldCorr) ==> r.corrUsd.None?
  {
    Readings(
      SafeFloat(Get(Bonds(ins), "tr_10y")), SafeFloat(Get(Bonds(ins), "tr_2y")),
      SafeFloat(Get(Rates(ins), "deposit")), FindMetric(ins.turkeyMacro, "cpi"),
      SafeFloat(Get(Bonds(ins), "fed_funds")), SafeFloat(Get(Bonds(ins), "us_cpi")),
      FindMetric(ins.turkeyMacro, "ppi_cpi_gap"),
      if Resolver.Truthy(ins.erp) then SafeFloat(Get(ins.erp.value, "erp")) else None,
      FindMetric(ins.turkeyMacro, "cds_5y"), MacroCdsAsWritten(ins.macro),
      if Resolver.Truthy(ins.goldCorr) then SafeFloat(Get(ins.goldCorr.value, "corr_usd")) else None)
  }

  // ----- the six components -------------------------------------------------

  predicate ScoredOrAbsent(c: Option<Component>)
  {
    c.Some? ==> AllowedScore(c.value.score)
  }

  /** Component 1: present only when both yields parse, scored on their spread. */
  function YieldCurve(rd: Readings): (r: Option<Component>)
    ensures ScoredOrAbsent(r)
    ensures r.Some? <==> rd.tr10.Some? && rd.tr2.Some?
    ensures r.Some? ==> r.value.reading == rd.tr10.value - rd.tr2.value
  {
    if rd.tr10.Some? && rd.tr2.Some? then Some(YieldCurveLadder(rd.tr10.value - rd.tr2.value)) else None
  }

  /** Component 2: present only when all four rates parse, scored on the Turkish minus the US real rate. */
  function RealCarry(rd: Readings): (r: Option<Component>)
    ensures ScoredOrAbsent(r)
    ensures r.Some? <==> rd.deposit.Some? && rd.cpi.Some? && rd.fed.Some? && rd.usCpi.Some?
    ensures r.Some? ==> r.value.reading == (rd.deposit.value - rd.cpi.value) - (rd.fed.value - rd.usCpi.value)
  {
    if rd.deposit.Some? && rd.cpi.Some? && rd.fed.Some? && rd.usCpi.Some? then
      Some(RealCarryLadder((rd.deposit.value - rd.cpi.value) - (rd.fed.value - rd.usCpi.value)))
    else None
  }

  /** Component 3: the PPI-CPI gap. */
  function PpiCpi(rd: Readings): (r: Option<Component>)
    ensures ScoredOrAbsent(r)
    ensures r.Some? <==> rd.ppiCpiGap.Some?
    ensures r.Some? ==> r.value.reading == rd.ppiCpiGap.value
  {
    match rd.ppiCpiGap
    case Some(g) => Some(PpiCpiLadder(g))
    case None => None
  }

  /** Component 4: the equity risk premium. */
  function Erp(rd: Readings): (r: Option<Component>)
    ensures ScoredOrAbsent(r)
    ensures r.Some? <==> rd.erp.Some?
    ensures r.Some? ==> r.value.reading == rd.erp.value
  {
    match rd.erp
    case Some(e) => Some(ErpLadder(e))
    case None => None
  }

  /** Component 5: CDS from the Turkey-macro list, else from the macro panel. */
  function Cds(rd: Readings): (r: Option<Component>)
    ensures ScoredOrAbsent(r)
    ensures r.Some? <==> rd.cdsPrimary.Some? || rd.cdsMacro.Some?
    ensures rd.cdsPrimary.Some? ==> r.value.reading == rd.cdsPrimary.value
    ensures rd.cdsPrimary.None? && rd.cdsMacro.Some? ==> r.value.reading == rd.cdsMacro.value
  {
    var cds := if rd.cdsPrimary.Some? then rd.cdsPrimary else rd.cdsMacro;
    match cds
    case Some(c) => Some(CdsLadder(c))
    case None => None
  }

  /** Component 6: gold's correlation with the dollar. */
  function GoldCorr(rd: Readings): (r: Option<Component>)
    ensures ScoredOrAbsent(r)
    ensures r.Some? <==> rd.corrUsd.Some?
    ensures r.Some? ==> r.value.reading == rd.corrUsd.value
  {
    match rd.corrUsd
    case Some(c) => Some(GoldCorrLadder(c))
    case None => None
  }

  /** The six components; `Key` is the name each has in the scores dictionary. */
  datatype ComponentName = YieldCurveKey | RealCarryKey | PpiCpiGapKey | ErpKey | CdsKey | GoldCorrKey
  {
    function Key(): string
    {
      match this
      case YieldCurveKey => "yield_curve"
      case RealCarryKey => "real_carry"
      case PpiCpiGapKey => "ppi_cpi_gap"
      case ErpKey => "erp"
      case CdsKey => "cds"
      case GoldCorrKey => "gold_corr"
    }
  }

  /** The component names with their weights, in the weights dictionary's order. */
  const Weights: seq<(ComponentName, real)> :=
    [(YieldCurveKey, 0.20), (RealCarryKey, 0.20), (PpiCpiGapKey, 0.10), (ErpKey, 0.20), (CdsKey, 0.20), (GoldCorrKey, 0.10)]

  const ComponentNames: set<ComponentName> := {YieldCurveKey, RealCarryKey, PpiCpiGapKey, ErpKey, CdsKey, GoldCorrKey}

  /** The component a name stands for. */
  function ComponentOf(rd: Readings, k: ComponentName): (r: Option<Component>)
    ensures ScoredOrAbsent(r)
  {
    match k
    case YieldCurveKey => YieldCurve(rd)
    case RealCarryKey => RealCarry(rd)
    case PpiCpiGapKey => PpiCpi(rd)
    case ErpKey => Erp(rd)
    case CdsKey => Cds(rd)
    case GoldCorrKey => GoldCorr(rd)
  }

  /** The scores dictionary: one entry per component whose readings are present, each on the allowed scale. */
  function Scores(rd: Readings): (r: map<ComponentName, Component>)
    ensures forall k :: k in r <==> ComponentOf(rd, k).Some?
    ensures forall k :: k in r ==> r[k] == ComponentOf(rd, k).value && AllowedScore(r[k].score)
  {
    map k | k in ComponentNames && ComponentOf(rd, k).Some? :: ComponentOf(rd, k).value
  }

  // ----- the composite -------------------------------------------------------

  /** Σ score·w over the listed components that are present. */
  function WeightedSum(scores: map<ComponentName, Component>, ws: seq<(ComponentName, real)>): real
  {
    if ws == [] then 0.0
    else
      var last := ws[|ws| - 1];
      WeightedSum(scores, ws[..|ws| - 1]) + (if last.0 in scores then scores[last.0].score * last.1 else 0.0)
  }

  /** Σ w over the listed components that are present. */
  function TotalWeight(scores: map<ComponentName, Component>, ws: seq<(ComponentName, real)>): real
  {
    if ws == [] then 0.0
    else
      var last := ws[|ws| - 1];
      TotalWeight(scores, ws[..|ws| - 1]) + (if last.0 in scores then last.1 else 0.0)
  }

  /** The weighted mean of the present scores, scaled to percent; 0 when nothing is present. */
  function Composite(scores: map<ComponentName, Component>): real
  {
    var tw := TotalWeight(scores, Weights);
    if tw > 0.0 then WeightedSum(scores, Weights) / tw * 100.0 else 0.0
  }

  /** RISK-ON above 25, NEUTRAL above -25, else RISK-OFF. */
  function Signal(composite: real): (r: string)
    ensures r == "RISK-ON" <==> composite > 25.0
    ensures r == "NEUTRAL" <==> -25.0 < composite <= 25.0
    ensures r == "RISK-OFF" <==> composite <= -25.0
  {
    if composite > 25.0 then "RISK-ON"
    else if composite > -25.0 then "NEUTRAL"
    else "RISK-OFF"
  }

  /** The returned dictionary, with the composite unrounded. */
  datatype Card = Card(scores: map<ComponentName, Component>, composite: real, signal: string, available: nat, total: nat)

  /** The card for a set of readings. */
  function CardOf(rd: Readings): (r: Card)
    ensures r.scores == Scores(rd) && r.available == |r.scores| && r.total == |Weights|
    ensures r.signal == "RISK-ON" <==> r.composite > 25.0
    ensures r.signal == "RISK-OFF" <==> r.composite <= -25.0
  {
    var scores := Scores(rd);
    var c := Composite(scores);
    Card(scores, c, Signal(c), |scores|, |Weights|)
  }

  /** compute_scorecard as a function of its four snapshots, as written. */
  function ScorecardSpec(ins: Inputs): (r: Card)
    ensures -100.0 <= r.composite <= 100.0
    ensures r.available <= r.total == 6
  {
    CompositeBounded(ReadingsOf(ins));
    AvailableAtMostTotal(ReadingsOf(ins));
    CardOf(ReadingsOf(ins))
  }

  /** The readings with the fallback CDS read from "val", the field the macro panel writes. */
  function CorrectedReadingsOf(ins: Inputs): (r: Readings)
    ensures r.cdsMacro == MacroCds(ins.macro)
    ensures r.(cdsMacro := None) == ReadingsOf(ins).(cdsMacro := None)
  {
    ReadingsOf(ins).(cdsMacro := MacroCds(ins.macro))
  }

  /** compute_scorecard with the fallback CDS read from "val". */
  function CorrectedScorecard(ins: Inputs): Card
  {
    CardOf(CorrectedReadingsOf(ins))
  }

  /**
   * As written, when the Turkey-macro list has no CDS the panel's CDS is never
   * scored: the card has no "cds" component.
   */
  lemma PanelCdsNeverScored(ins: Inputs)
    requires FindMetric(ins.turkeyMacro, "cds_5y").None?
    requires ins.macro.Some? && ins.macro.value.cds.Some? && PanelCdsRecord(ins.macro.value.cds.value)
    ensures CdsKey !in ScorecardSpec(ins).scores
  {
    MacroCdsAsWrittenMisses(ins.macro.value);
  }

  /** A fallback CDS figure, where there was none, adds exactly the CDS entry. */
  lemma CdsFallbackAdds(rd: Readings, figure: real)
    requires rd.cdsPrimary.None? && rd.cdsMacro.None?
    ensures CdsKey !in Scores(rd)
    ensures Scores(rd.(cdsMacro := Some(figure))) == Scores(rd)[CdsKey := CdsLadder(figure)]
  {
    var rd' := rd.(cdsMacro := Some(figure));
    forall k | k != CdsKey
      ensures ComponentOf(rd', k) == ComponentOf(rd, k)
    {
    }
  }

  /**
   * Corrected, the same inputs score the panel's figure on the CDS ladder,
   * and one more component is available than as written.
   */
  lemma PanelCdsScored(ins: Inputs, figure: real)
    requires FindMetric(ins.turkeyMacro, "cds_5y").None?
    requires ins.macro.Some? && ins.macro.value.cds.Some? && PanelCdsRecord(ins.macro.value.cds.value)
    requires ins.macro.value.cds.value["val"] == Num(figure)
    ensures CdsKey in CorrectedScorecard(ins).scores
    ensures CorrectedScorecard(ins).scores[CdsKey] == CdsLadder(figure)
    ensures CorrectedScorecard(ins).available == ScorecardSpec(ins).available + 1
  {
    MacroCdsAsWrittenMisses(ins.macro.value);
    MacroCdsReadsPanel(ins.macro.value, figure);
    var rd := ReadingsOf(ins);
    assert CorrectedReadingsOf(ins) == rd.(cdsMacro := Some(figure));
    CdsFallbackAdds(rd, figure);
  }

  /** The scores are filled one component at a time, then the weights loop accumulates. */
  method ComputeScorecard(ins: Inputs) returns (card: Card)
    ensures card == ScorecardSpec(ins)
  {
    var rd := ReadingsOf(ins);
    var scores := FillScores(rd);
    var totalWeight, weightedSum := WeighScores(scores);
    var composite := if totalWeight > 0.0 then weightedSum / totalWeight * 100.0 else 0.0;
    var signal := if composite > 25.0 then "RISK-ON" else if composite > -25.0 then "NEUTRAL" else "RISK-OFF";
    card := Card(scores, composite, signal, |scores|, |Weights|);
  }

  /** The entries of the components named in `names` whose readings are present. */
  function Present(rd: Readings, names: set<ComponentName>): map<ComponentName, Component>
  {
    map k | k in names && ComponentOf(rd, k).Some? :: ComponentOf(rd, k).value
  }

  /** Running one more scoring block adds that component's entry exactly when it is present. */
  lemma PresentAdd(rd: Readings, names: set<ComponentName>, k: ComponentName, more: set<ComponentName>)
    requires more == names + {k}
    ensures Present(rd, more) ==
              if ComponentOf(rd, k).Some? then Present(rd, names)[k := ComponentOf(rd, k).value] else Present(rd, names)
  {
  }

  /** The six scoring blocks, each adding its entry when its readings are present. */
  method FillScores(rd: Readings) returns (scores: map<ComponentName, Component>)
    ensures scores == Scores(rd)
  {
    scores := map[];
    assert scores == Present(rd, {});
    var yc := YieldCurve(rd);
    PresentAdd(rd, {}, YieldCurveKey, {YieldCurveKey});
    if yc.Some? { scores := scores[YieldCurveKey := yc.value]; }
    assert scores == Present(rd, {YieldCurveKey});
    var carry := RealCarry(rd);
    PresentAdd(rd, {YieldCurveKey}, RealCarryKey, {YieldCurveKey, RealCarryKey});
    if carry.Some? { scores := scores[RealCarryKey := carry.value]; }
    assert scores == Present(rd, {YieldCurveKey, RealCarryKey});
    var gap := PpiCpi(rd);
    PresentAdd(rd, {YieldCurveKey, RealCarryKey}, PpiCpiGapKey, {YieldCurveKey, RealCarryKey, PpiCpiGapKey});
    if gap.Some? { scores := scores[PpiCpiGapKey := gap.value]; }
    assert scores == Present(rd, {YieldCurveKey, RealCarryKey, PpiCpiGapKey});
    var erp := Erp(rd);
    PresentAdd(rd, {YieldCurveKey, RealCarryKey, PpiCpiGapKey}, ErpKey, {YieldCurveKey, RealCarryKey, PpiCpiGapKey, ErpKey});
    if erp.Some? { scores := scores[ErpKey := erp.value]; }
    assert scores == Present(rd, {YieldCurveKey, RealCarryKey, PpiCpiGapKey, ErpKey});
    var cds := Cds(rd);
    PresentAdd(rd, {YieldCurveKey, RealCarryKey, PpiCpiGapKey, ErpKey}, CdsKey, {YieldCurveKey, RealCarryKey, PpiCpiGapKey, ErpKey, CdsKey});
    if cds.Some? { scores := scores[CdsKey := cds.value]; }
    assert scores == Present(rd, {YieldCurveKey, RealCarryKey, PpiCpiGapKey, ErpKey, CdsKey});
    var gold := GoldCorr(rd);
    PresentAdd(rd, {YieldCurveKey, RealCarryKey, PpiCpiGapKey, ErpKey, CdsKey}, GoldCorrKey, {YieldCurveKey, RealCarryKey, PpiCpiGapKey, ErpKey, CdsKey, GoldCorrKey});
    if gold.Some? { scores := scores[GoldCorrKey := gold.value]; }
    assert scores == Present(rd, {YieldCurveKey, RealCarryKey, PpiCpiGapKey, ErpKey, CdsKey, GoldCorrKey});
  }

  /** The loop over the weights dictionary. */
  method WeighScores(scores: map<ComponentName, Component>) returns (totalWeight: real, weightedSum: real)
    ensures totalWeight == TotalWeight(scores, Weights)
    ensures weightedSum == WeightedSum(scores, Weights)
  {
    totalWeight := 0.0;
    weightedSum := 0.0;
    for i := 0 to |Weights|
      invariant totalWeight == TotalWeight(scores, Weights[..i])
      invariant weightedSum == WeightedSum(scores, Weights[..i])
    {
      var (key, w) := Weights[i];
      assert Weights[..i + 1][..i] == Weights[..i];
      if key in scores {
        weightedSum := weightedSum + scores[key].score * w;
        totalWeight := totalWeight + w;
      }
    }
    assert Weights[..|Weights|] == Weights;
  }

  // ----- properties ------------------------------------------------------------

  predicate ScoresBounded(scores: map<ComponentName, Component>)
  {
    forall k :: k in scores ==> -1.0 <= scores[k].score <= 1.0
  }

  predicate WeightsPositive(ws: seq<(ComponentName, real)>)
  {
    forall i :: 0 <= i < |ws| ==> ws[i].1 > 0.0
  }

  lemma ScaledBetween(s: real, w: real)
    requires -1.0 <= s <= 1.0 && w >= 0.0
    ensures -w <= s * w <= w
  {
    assert (1.0 - s) * w >= 0.0;
    assert (1.0 + s) * w >= 0.0;
  }

  /** The last listed component adds at most its weight to the sum, and at least minus its weight. */
  lemma WeightedStep(scores: map<ComponentName, Component>, ws: seq<(ComponentName, real)>)
    requires ScoresBounded(scores) && ws != [] && ws[|ws| - 1].1 > 0.0
    ensures var init := ws[..|ws| - 1];
            var d := WeightedSum(scores, ws) - WeightedSum(scores, init);
            var w := TotalWeight(scores, ws) - TotalWeight(scores, init);
            -w <= d <= w
  {
    var last := ws[|ws| - 1];
    if last.0 in scores {
      ScaledBetween(scores[last.0].score, last.1);
    }
  }

  /** |Σ score·w| never exceeds Σ w when every score lies in [-1, 1]. */
  lemma {:induction false} WeightedSumBounded(scores: map<ComponentName, Component>, ws: seq<(ComponentName, real)>)
    requires ScoresBounded(scores) && WeightsPositive(ws)
    ensures -TotalWeight(scores, ws) <= WeightedSum(scores, ws) <= TotalWeight(scores, ws)
  {
    if ws != [] {
      var init := ws[..|ws| - 1];
      assert WeightsPositive(init) by {
        assert forall i :: 0 <= i < |init| ==> init[i] == ws[i];
      }
      WeightedSumBounded(scores, init);
      WeightedStep(scores, ws);
    }
  }

  /** Every listed component that is present adds its weight: the total is positive exactly when one is present. */
  lemma {:induction false} TotalWeightPositive(scores: map<ComponentName, Component>, ws: seq<(ComponentName, real)>)
    requires WeightsPositive(ws)
    ensures TotalWeight(scores, ws) >= 0.0
    ensures TotalWeight(scores, ws) > 0.0 <==> exists i :: 0 <= i < |ws| && ws[i].0 in scores
  {
    if ws != [] {
      var init := ws[..|ws| - 1];
      assert forall i :: 0 <= i < |init| ==> init[i] == ws[i];
      TotalWeightPositive(scores, init);
    }
  }

  lemma ShippedWeightsPositive()
    ensures WeightsPositive(Weights)
  {
  }

  /** Every component name is listed in the weights. */
  lemma NameListed(k: ComponentName) returns (i: nat)
    ensures i < |Weights| && Weights[i].0 == k
  {
    match k
    case YieldCurveKey => i := 0;
    case RealCarryKey => i := 1;
    case PpiCpiGapKey => i := 2;
    case ErpKey => i := 3;
    case CdsKey => i := 4;
    case GoldCorrKey => i := 5;
  }

  /** The composite always lies in [-100, 100]. */
  lemma CompositeBounded(rd: Readings)
    ensures -100.0 <= CardOf(rd).composite <= 100.0
  {
    var scores := Scores(rd);
    ShippedWeightsPositive();
    WeightedSumBounded(scores, Weights);
    TotalWeightPositive(scores, Weights);
    var tw := TotalWeight(scores, Weights);
    var ws := WeightedSum(scores, Weights);
    if tw > 0.0 {
      DivMonotone(-tw, ws, tw);
      DivMonotone(ws, tw, tw);
      DivSelf(tw);
      assert -tw / tw == -1.0;
    }
  }

  /** With no component present the composite is 0 and the signal NEUTRAL; with any present the weights are re-normalised over them. */
  lemma EmptyScorecard(rd: Readings)
    ensures Scores(rd) == map[] <==> TotalWeight(Scores(rd), Weights) == 0.0
    ensures Scores(rd) == map[] ==> CardOf(rd).composite == 0.0 && CardOf(rd).signal == "NEUTRAL"
  {
    var scores := Scores(rd);
    ShippedWeightsPositive();
    TotalWeightPositive(scores, Weights);
    if scores != map[] {
      var k :| k in scores;
      var i := NameListed(k);
      assert Weights[i].0 in scores;
    }
  }

  /** With one component present, the weighted sum is its score times the total weight. */
  lemma {:induction false} OnlyOneCounts(k: ComponentName, c: Component, ws: seq<(ComponentName, real)>)
    ensures WeightedSum(map[k := c], ws) == c.score * TotalWeight(map[k := c], ws)
  {
    if ws != [] {
      OnlyOneCounts(k, c, ws[..|ws| - 1]);
    }
  }

  /** A single present component decides the composite alone: its score times 100. */
  lemma SingleComponent(k: ComponentName, c: Component)
    ensures Composite(map[k := c]) == c.score * 100.0
  {
    var scores := map[k := c];
    OnlyOneCounts(k, c, Weights);
    ShippedWeightsPositive();
    TotalWeightPositive(scores, Weights);
    var i := NameListed(k);
    assert Weights[i].0 in scores;
    var w := TotalWeight(scores, Weights);
    assert c.score * w / w == c.score;
  }

  /** At most the six weighted components are ever available. */
  lemma AvailableAtMostTotal(rd: Readings)
    ensures CardOf(rd).available <= CardOf(rd).total == 6
  {
    var scores := Scores(rd);
    assert |ComponentNames| == 6;
    SubsetCard(scores.Keys, ComponentNames);
  }

  lemma SubsetCard(a: set<ComponentName>, b: set<ComponentName>)
    requires a <= b
    ensures |a| <= |b|
  {
    assert b == a + (b - a);
  }
}
