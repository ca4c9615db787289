// The registry as shipped (engine/registry.py, DATA_REGISTRY): fifty-three
// entities in ten groups, and facts about it that the rest of the engine
// relies on.
module RegistryData {
  import opened Wrappers
  import opened Text
  import opened Registry

  /** An entry with a unit and an explanation and no optional extras. */
  function Listed(name: string, group: string, locator: string, source: string, unit: string, explain: string): (e: Entry)
    ensures !e.chartable && e.technicalKey.None? && e.valuation.None? && e.correlations.None?
  {
    Entry(name, group, locator, source, Some(unit), Some(explain), false, None, None, None)
  }

  /** A market entry flagged "chartable". */
  function Charted(name: string, group: string, locator: string, source: string, unit: string, explain: string): (e: Entry)
    ensures e.chartable && e.technicalKey.None? && e.valuation.None? && e.correlations.None?
  {
    Entry(name, group, locator, source, Some(unit), Some(explain), true, None, None, None)
  }

  const RatesGroup: seq<Registered> :=
    [
      Registered("policy_rate", Listed("CBRT Policy Rate", "rates", "policy_rate", "macro", "%",
        "The CBRT's one-week repo rate — the benchmark interest rate for Turkey. Higher = tighter monetary policy = stronger TRY but slower growth.")),
      Registered("deposit_rate", Listed("Deposit Rate", "rates", "deposit_rate", "macro", "%",
        "Interest rate paid on overnight deposits at the central bank. Acts as the floor of the interest rate corridor.")),
      Registered("com_loan", Listed("Commercial Loan Rate", "rates", "com_loan", "macro", "%",
        "Average interest rate on commercial loans. Shows the real cost of borrowing for Turkish businesses.")),
      Registered("real_rate", Listed("Real Interest Rate", "rates", "real_rate", "macro", "%",
        "Policy Rate minus Inflation. Positive = monetary tightening is biting. Negative = inflation outpaces rates (loose policy in disguise).")),
      Registered("real_carry", Listed("Real Carry", "rates", "real_carry", "macro", "%",
        "The return a foreign investor earns by borrowing in USD and depositing in TRY, adjusted for inflation. High carry attracts hot money into TRY assets."))
    ]

  const BondsGroup: seq<Registered> :=
    [
      Registered("tr_2y", Listed("TR 2Y Bond Yield", "bonds", "tr_2y", "macro", "%",
        "Yield on Turkish 2-year government bonds. Reflects near-term rate expectations and central bank credibility.")),
      Registered("tr_10y", Listed("TR 10Y Bond Yield", "bonds", "tr_10y", "equity_risk", "%",
        "Yield on Turkish 10-year government bonds. The long-term benchmark — reflects inflation expectations and sovereign risk.")),
      Registered("us_10y", Listed("US 10Y Bond Yield", "bonds", "us_10y", "macro", "%",
        "The global risk-free rate. When US 10Y rises, capital flows out of EM (including Turkey) back to USD safety.")),
      Registered("risk_premium", Listed("Risk Premium (Spread)", "bonds", "risk_premium", "macro", "bps",
        "TR 10Y minus US 10Y. Shows how much extra yield investors demand to hold Turkish debt vs US Treasuries. Higher = more perceived risk.")),
      Registered("tr_curve", Listed("Yield Curve (10Y-2Y)", "bonds", "tr_curve", "macro", "bps",
        "10Y yield minus 2Y yield. Negative (inverted) = market expects rate cuts or recession. Deeply inverted = danger signal.")),
      Registered("cds", Listed("Turkey 5Y CDS", "bonds", "cds", "macro", "bps",
        "Credit Default Swap spread — the cost of insuring Turkish sovereign debt against default. Higher = market thinks Turkey is riskier.")),
      Registered("erp", Listed("Equity Risk Premium", "bonds", "erp", "equity_risk", "%",
        "Earnings Yield minus Risk-Free Rate. Positive ERP = stocks are cheap vs bonds. Negative = bonds beat stocks (why take equity risk?).")),
      Registered("pe", Listed("BIST 100 P/E Ratio", "bonds", "pe", "equity_risk", "x",
        "Price-to-Earnings ratio of the BIST 100 index. Lower P/E = cheaper market. Turkey historically trades at 5-8x (deep discount vs EM peers at 12-15x)."))
    ]

  const InflationGroup: seq<Registered> :=
    [
      Registered("cpi_yoy", Listed("CPI YoY", "inflation", "cpi_yoy", "macro", "%",
        "Consumer Price Index, year-over-year change. The headline inflation number Turkey reports monthly. Above 50% = hyperinflation territory.")),
      Registered("cpi_mom", Listed("CPI MoM", "inflation", "cpi_mom", "macro", "%",
        "Monthly inflation rate. Annualize this (×12) for a rough read of current inflation momentum.")),
      Registered("core_cpi", Listed("Core CPI", "inflation", "core_cpi", "macro", "%",
        "CPI excluding food and energy — shows 'sticky' underlying inflation. If core is high, rate cuts won't come soon.")),
      Registered("ppi_yoy", Listed("PPI YoY", "inflation", "ppi_yoy", "macro", "%",
        "Producer Price Index YoY. A leading indicator for CPI — today's PPI increase becomes tomorrow's CPI increase as costs pass through.")),
      Registered("ppi_cpi_gap", Listed("PPI-CPI Gap", "inflation", "ppi_cpi_gap", "macro", "pts",
        "PPI minus CPI. Positive gap = producers are absorbing costs (margins shrinking). Negative gap = cost pressures easing, disinflation signal.")),
      Registered("food_cpi", Listed("Food CPI", "inflation", "food_cpi", "macro", "%",
        "Food inflation — critical in Turkey where food is 25%+ of the CPI basket. Politically sensitive."))
    ]

  const EconomyGroup: seq<Registered> :=
    [
      Registered("gdp_growth", Listed("GDP Growth", "economy", "gdp_growth", "macro", "%",
        "Real GDP growth rate. Turkey's economy is consumption-driven. Positive growth + high inflation = overheating.")),
      Registered("unemployment", Listed("Unemployment Rate", "economy", "unemployment", "macro", "%",
        "Official unemployment rate. Note: Turkey's broad unemployment (including discouraged workers) is typically 2-3x the official figure.")),
      Registered("current_account", Listed("Current Account", "economy", "current_account", "macro", "M$",
        "Current account balance. Negative = Turkey imports more than it exports = needs foreign currency inflows = vulnerable to capital flight.")),
      Registered("fx_reserves", Listed("FX Reserves (Net)", "economy", "fx_reserves", "macro", "M$",
        "Central bank net FX reserves. Turkey's reserves are notoriously low. Below $30B net = danger zone (can't defend TRY).")),
      Registered("m2_supply", Listed("M2 Money Supply", "economy", "m2_supply", "macro", "B TL",
        "Broad money supply. Rapid M2 growth = too much money chasing goods = fuel for inflation.")),
      Registered("total_credit", Listed("Total Credit", "economy", "total_credit", "macro", "B TL",
        "Total bank credit in the economy. Rapid credit growth = overheating risk. CBRT uses 'macroprudential' tools to slow this.")),
      Registered("biz_confidence", Listed("Business Confidence", "economy", "biz_confidence", "macro", "",
        "Business confidence index. Above 100 = optimistic. Below 100 = pessimistic. A leading indicator for investment and hiring.")),
      Registered("consumer_conf", Listed("Consumer Confidence", "economy", "consumer_conf", "macro", "",
        "Consumer confidence index. Low confidence = people delay purchases = slower growth.")),
      Registered("rating", Listed("Sovereign Credit Rating", "economy", "rating", "macro", "",
        "Turkey's sovereign credit rating (Moody's/Fitch/S&P). Currently sub-investment grade ('junk'). Upgrade = massive capital inflows."))
    ]

  const CbrtGroup: seq<Registered> :=
    [
      Registered("cbrt_rate", Listed("CBRT Policy Rate", "cbrt", "policy_rate", "cbrt", "%",
        "Same as Policy Rate, shown in the CBRT context panel. The CBRT's main policy lever.")),
      Registered("cbrt_next", Listed("CBRT Next Meeting", "cbrt", "next_meeting", "cbrt", "",
        "Date of the next Monetary Policy Committee (MPC) meeting. Markets price in rate decisions weeks before."))
    ]

  const EquitiesGroup: seq<Registered> :=
    [
      Registered("bist100", Charted("BIST 100 Index", "equities", "XU100.IS", "market", "pts",
        "Borsa Istanbul 100 — Turkey's main stock index. Composed of the 100 largest companies by market cap.")),
      Registered("bist30", Charted("BIST 30 Index", "equities", "XU030.IS", "market", "pts",
        "The 30 most liquid stocks on Borsa Istanbul. More concentrated = more volatile. Used for futures trading.")),
      Registered("sp500", Charted("S&P 500", "equities", "^GSPC", "market", "pts",
        "The US benchmark index. When S&P drops, EM markets like Turkey typically drop harder (risk-off).")),
      Registered("dowjones", Charted("Dow Jones", "equities", "^DJI", "market", "pts",
        "Dow Jones Industrial Average — 30 large US companies. Price-weighted (not market-cap weighted like S&P).")),
      Registered("nasdaq", Charted("NASDAQ Composite", "equities", "^IXIC", "market", "pts",
        "Tech-heavy US index. Sensitive to interest rates — when rates rise, growth/tech stocks suffer.")),
      Registered("dax", Charted("DAX (Germany)", "equities", "^GDAXI", "market", "pts",
        "Germany's main index. Important for Turkey because Germany is Turkey's largest trade partner.")),
      Registered("ftse", Charted("FTSE 100 (UK)", "equities", "^FTSE", "market", "pts",
        "UK's main stock index.")),
      Registered("nikkei", Charted("Nikkei 225 (Japan)", "equities", "^N225", "market", "pts",
        "Japan's main stock index.")),
      Registered("russell", Charted("Russell 2000", "equities", "^RUT", "market", "pts",
        "US small-cap index. Small caps are more sensitive to domestic economic conditions."))
    ]

  const FxGroup: seq<Registered> :=
    [
      Registered("usdtry", Charted("USD/TRY", "fx", "TRY=X", "market", "",
        "US Dollar to Turkish Lira. The single most important price in Turkey. Drives import costs, inflation expectations, and political stability.")),
      Registered("eurtry", Charted("EUR/TRY", "fx", "EURTRY=X", "market", "",
        "Euro to Turkish Lira. Important because Europe is Turkey's largest trading partner.")),
      Registered("dxy", Charted("Dollar Index (DXY)", "fx", "DX-Y.NYB", "market", "",
        "US Dollar strength vs a basket of 6 currencies. When DXY rises, EM currencies (including TRY) weaken.")),
      Registered("gbptry", Charted("GBP/TRY", "fx", "GBPTRY=X", "market", "",
        "British Pound to Turkish Lira."))
    ]

  const CommoditiesGroup: seq<Registered> :=
    [
      Registered("gold", Charted("Gold (XAU/USD)", "commodities", "GC=F", "market", "$",
        "Global gold price in USD. Turkish citizens are massive gold buyers — it's a traditional inflation hedge and store of value.")),
      Registered("gram_gold", Charted("Gram Gold (TRY)", "commodities", "gram_gold", "market", "₺",
        "Gold price per gram in Turkish Lira (XAU/USD × USDTRY / 31.1035). The price Turkish citizens actually pay at the 'kuyumcu' (jeweler).")),
      Registered("silver", Charted("Silver", "commodities", "SI=F", "market", "$",
        "Silver price. More volatile than gold, with industrial demand component.")),
      Registered("oil_brent", Charted("Brent Crude Oil", "commodities", "BZ=F", "market", "$",
        "Brent crude oil price. Turkey imports nearly ALL its oil — rising oil = wider current account deficit = weaker TRY.")),
      Registered("oil_wti", Charted("WTI Crude Oil", "commodities", "CL=F", "market", "$",
        "US benchmark crude oil.")),
      Registered("natgas", Charted("Natural Gas", "commodities", "NG=F", "market", "$",
        "Henry Hub natural gas price. Turkey imports most of its gas from Russia and Iran."))
    ]

  const CryptoGroup: seq<Registered> :=
    [
      Registered("btc", Charted("Bitcoin", "crypto", "BTC-USD", "market", "$",
        "Bitcoin. Turkey has one of the highest crypto adoption rates globally, partly as a hedge against TRY depreciation.")),
      Registered("eth", Charted("Ethereum", "crypto", "ETH-USD", "market", "$",
        "Ethereum. The second largest cryptocurrency by market cap."))
    ]

  const ScorecardGroup: seq<Registered> :=
    [
      Registered("scorecard", Listed("Macro Scorecard", "scorecard", "composite", "scorecard", "",
        "Composite macro score (-10 to +10) combining yield curve, real carry, PPI-CPI gap, and gold correlation signals. Below -5 = BEARISH, above +5 = BULLISH.")),
      Registered("gold_corr", Listed("Gold/TRY Correlation", "scorecard", "gold_corr", "gold_corr", "",
        "3-month correlation between Gram Gold and USDTRY. High correlation (>0.8) = gold is just an FX hedge (Lira fear). Low correlation = gold has independent safe-haven appeal."))
    ]

  /** DATA_REGISTRY, in declaration order. */
  const DataRegistry: seq<Registered> :=
    RatesGroup
    + BondsGroup
    + InflationGroup
    + EconomyGroup
    + CbrtGroup
    + EquitiesGroup
    + FxGroup
    + CommoditiesGroup
    + CryptoGroup
    + ScorecardGroup

  /** An entry without "technical_key", "valuation" or "correlations". */
  predicate Plain(r: Registered)
  {
    r.entry.technicalKey.None? && r.entry.valuation.None? && r.entry.correlations.None?
  }

  /** What every shipped entry satisfies: no optional extras and not named "vix". */
  predicate Shipped(r: Registered)
  {
    Plain(r) && r.id != "vix"
  }

  lemma RatesShipped()
    ensures forall r :: r in RatesGroup ==> Shipped(r)
  {
  }

  lemma BondsShipped()
    ensures forall r :: r in BondsGroup ==> Shipped(r)
  {
  }

  lemma InflationShipped()
    ensures forall r :: r in InflationGroup ==> Shipped(r)
  {
  }

  lemma EconomyShipped()
    ensures forall r :: r in EconomyGroup ==> Shipped(r)
  {
  }

  lemma CbrtShipped()
    ensures forall r :: r in CbrtGroup ==> Shipped(r)
  {
  }

  lemma EquitiesShipped()
    ensures forall r :: r in EquitiesGroup ==> Shipped(r)
  {
  }

  lemma FxShipped()
    ensures forall r :: r in FxGroup ==> Shipped(r)
  {
  }

  lemma CommoditiesShipped()
    ensures forall r :: r in CommoditiesGroup ==> Shipped(r)
  {
  }

  lemma CryptoShipped()
    ensures forall r :: r in CryptoGroup ==> Shipped(r)
  {
  }

  lemma ScorecardShipped()
    ensures forall r :: r in ScorecardGroup ==> Shipped(r)
  {
  }

  lemma DataRegistryShipped()
    ensures forall r :: r in DataRegistry ==> Shipped(r)
  {
    RatesShipped();
    BondsShipped();
    InflationShipped();
    EconomyShipped();
    CbrtShipped();
    EquitiesShipped();
    FxShipped();
    CommoditiesShipped();
    CryptoShipped();
    ScorecardShipped();
  }

  /** No shipped entry sets "technical_key", "valuation" or "correlations". */
  lemma DataRegistryPlain()
    ensures forall i :: 0 <= i < |DataRegistry| ==> Plain(DataRegistry[i])
  {
    DataRegistryShipped();
    forall i | 0 <= i < |DataRegistry|
      ensures Plain(DataRegistry[i])
    {
      assert DataRegistry[i] in DataRegistry;
    }
  }

  /** "vix" is not registered, so the engine never fetches a VIX level for bist100. */
  lemma NoVixEntry()
    ensures Lookup(DataRegistry, "vix") == None
  {
    DataRegistryShipped();
    LookupAbsent(DataRegistry, "vix");
  }

  /** Every group declared before the scorecard group. */
  const UnscoredGroups: seq<Registered> :=
    RatesGroup + BondsGroup + InflationGroup + EconomyGroup + CbrtGroup
    + EquitiesGroup + FxGroup + CommoditiesGroup + CryptoGroup

  lemma RatesUnscored()
    ensures forall r :: r in RatesGroup ==> r.id != "scorecard"
  {
  }

  lemma BondsUnscored()
    ensures forall r :: r in BondsGroup ==> r.id != "scorecard"
  {
  }

  lemma InflationUnscored()
    ensures forall r :: r in InflationGroup ==> r.id != "scorecard"
  {
  }

  lemma EconomyUnscored()
    ensures forall r :: r in EconomyGroup ==> r.id != "scorecard"
  {
  }

  lemma CbrtUnscored()
    ensures forall r :: r in CbrtGroup ==> r.id != "scorecard"
  {
  }

  lemma EquitiesUnscored()
    ensures forall r :: r in EquitiesGroup ==> r.id != "scorecard"
  {
  }

  lemma FxUnscored()
    ensures forall r :: r in FxGroup ==> r.id != "scorecard"
  {
  }

  lemma CommoditiesUnscored()
    ensures forall r :: r in CommoditiesGroup ==> r.id != "scorecard"
  {
  }

  lemma CryptoUnscored()
    ensures forall r :: r in CryptoGroup ==> r.id != "scorecard"
  {
  }

  /** No entry before the scorecard group is named "scorecard". */
  lemma NoEarlierScorecard()
    ensures Lookup(UnscoredGroups, "scorecard") == None
  {
    RatesUnscored();
    BondsUnscored();
    InflationUnscored();
    EconomyUnscored();
    CbrtUnscored();
    EquitiesUnscored();
    FxUnscored();
    CommoditiesUnscored();
    CryptoUnscored();
    LookupAbsent(UnscoredGroups, "scorecard");
  }

  /** Looking "scorecard" up in DATA_REGISTRY finds the composite entry of the scorecard group. */
  lemma ScorecardLookup()
    ensures Lookup(DataRegistry, "scorecard") == Some(ScorecardGroup[0].entry)
    ensures HasGroup(DataRegistry, "scorecard")
  {
    assert DataRegistry == UnscoredGroups + ScorecardGroup;
    assert Lookup(ScorecardGroup, "scorecard") == Some(ScorecardGroup[0].entry) by {
      assert ScorecardGroup[0].id == "scorecard";
    }
    NoEarlierScorecard();
    LookupAppend(UnscoredGroups, ScorecardGroup, "scorecard");
    LookupGroup(DataRegistry, "scorecard");
  }

  /** "scorecard" is already in canonical form. */
  lemma ScorecardCanonical()
    ensures Normalize("scorecard") == "scorecard"
  {
    NormalizeCanonical("scorecard");
  }

  /**
   * "scorecard" is both a name and a group of DATA_REGISTRY: the exact match
   * wins, and the single result carries the locator "composite" as its key.
   */
  lemma ScorecardIsExact()
    ensures HasGroup(DataRegistry, "scorecard")
    ensures SearchSpec(DataRegistry, "scorecard")
         == [Hit(EntityView("composite", ScorecardGroup[0].entry), Exact, 0)]
  {
    ScorecardLookup();
    ScorecardCanonical();
    SearchFound(DataRegistry, "scorecard", ScorecardGroup[0].entry);
  }
}
