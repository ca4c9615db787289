// The economics lexicon behind the terminal's educational pop-ups: a fixed
// table of metric keys to textbook entries, and the lookup that falls back
// to a placeholder entry for metrics the table does not document.
module Knowledge {
  import opened Wrappers

  /**
   * One lexicon entry: the metric's full name, its formula where the table
   * gives one, and the metrics it is related to, in the table's order.
   */
  datatype Entry = Entry(fullName: string, formula: Option<string>, related: seq<string>)

  /** `KNOWLEDGE_BASE`. */
  const Base: map<string, Entry> :=
    map[
      "CDS" := Entry("5-Year Credit Default Swap", None, ["USDTRY", "BIST100", "Spread"]),
      "real_rate" := Entry("Ex-Ante Real Interest Rate", Some("Real Rate = Policy Rate - Expected Inflation"), ["USDTRY"]),
      "VIX" := Entry("CBOE Volatility Index (The 'Fear Gauge')", None, ["BIST100", "CDS"]),
      "aofm" := Entry("CBRT Average Cost of Funding (AOFM)", None, ["Deposit Rate", "USDTRY"]),
      "Spread" := Entry("10-Year Bond Yield Spread (TR vs US)", None, ["CDS", "Foreign Flows"]),
      "deposit_rate" := Entry("Bank Deposit Interest Rate (Up to 3-Months)", None, ["BIST100", "Inflation"]),
      "TR_2Y" := Entry("Turkey 2-Year Benchmark Bond Yield", None, ["aofm", "BIST100"]),
      "TR_10Y" := Entry("Turkey 10-Year Benchmark Bond Yield", None, ["TR_2Y", "Spread"]),
      "US_10Y" := Entry("United States 10-Year Treasury Yield", None, ["CDS", "USDTRY"]),
      "commercial_loan" := Entry("Commercial Loan Interest Rate", None, ["GDP Growth"]),
      "cpi" := Entry("Consumer Price Index (Headline Inflation) YoY", None, ["interest_rate", "USDTRY"]),
      "gdp_yoy" := Entry("Real GDP Growth (Year-over-Year)", None, ["unemployment"]),
      "usdtry" := Entry("USD/TRY Exchange Rate", None, ["cpi"]),
      "fx_reserves" := Entry("CBRT Gross Foreign Exchange Reserves", None, ["CDS"]),
      "current_account" := Entry("Current Account Balance", None, ["fx_reserves"]),
      "interest_rate" := Entry("CBRT One-Week Repo Auction Rate", None, ["deposit_rate"]),
      "gram_altin" := Entry("Gram Gold (TRY)", None, ["usdtry"])
    ]

  /** The placeholder entry for an undocumented metric: named after the key, with no relationships. */
  function Placeholder(key: string): (e: Entry)
    ensures e.fullName == key && e.formula == None && e.related == []
  {
    Entry(key, None, [])
  }

  /** `get_context`: the table's entry for the key, or the placeholder. Keys match exactly, case included. */
  function GetContext(key: string): (e: Entry)
    ensures key in Base ==> e == Base[key]
    ensures key !in Base ==> e == Entry(key, None, [])
  {
    if key in Base then Base[key] else Placeholder(key)
  }

  /** The keys of the table, in its order. */
  const Keys: seq<string> :=
    ["CDS", "real_rate", "VIX", "aofm", "Spread", "deposit_rate", "TR_2Y", "TR_10Y", "US_10Y",
     "commercial_loan", "cpi", "gdp_yoy", "usdtry", "fx_reserves", "current_account", "interest_rate", "gram_altin"]

  lemma KeysListed()
    ensures forall k :: k in Base <==> k in Keys
  {
  }

  /** A lookup answers with an entry named after the key exactly when the table does not document the key. */
  lemma NamedAfterKeyIffUndocumented(key: string)
    ensures GetContext(key).fullName == key <==> key !in Base
  {
    KeysListed();
  }

  /** A lookup's entry relates the metric to others exactly when the table documents it. */
  lemma RelatedIffDocumented(key: string)
    ensures GetContext(key).related != [] <==> key in Base
  {
    KeysListed();
  }

  /** Only the real-rate entry carries a formula. */
  lemma FormulaOnlyForRealRate(key: string)
    ensures GetContext(key).formula.Some? <==> key == "real_rate"
  {
    if key != "real_rate" && key in Base {
      assert Base[key].formula == None;
    }
  }

  /** Keys match exactly: "CDS" is documented, "cds" gets the placeholder. */
  lemma LookupIsCaseSensitive()
    ensures GetContext("CDS").fullName == "5-Year Credit Default Swap"
    ensures "cds" !in Base && GetContext("cds") == Placeholder("cds")
  {
  }
}
