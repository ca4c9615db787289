# Berke terminal dashboard — a verified model of its engine

The dashboard is a Bloomberg-style terminal for Turkish markets. A Python
engine gathers market quotes (yfinance), central-bank statistics (EVDS),
scraped prices and news, derives the figures the panels show (real rates,
spreads, carry, fair values, a macro scorecard, sigma alerts, seasonality,
an impact chain between related entities, a research brief) and serves
them as JSON; a JavaScript front end renders them and accepts commands such
as `@cds set 280` or `@gold vs @usdtry`.

This project models the deterministic core of that engine, and the command
bar of the front end, in Dafny, and proves what the code promises about it:

- `Values`, `Wrappers`: the dynamically typed values that flow through the
  engine's dictionaries (None, numbers, strings, "N/A") and Python's
  exceptions as an `Outcome`.
- `Text`, `Numbers`, `Sorting`: the string, number-parsing and ordering
  primitives the engine relies on, with their own correctness lemmas. They
  are narrower than Python's and JavaScript's: case mapping covers ASCII and
  the Turkish capitals Ç Ğ Ö Ş Ü, whitespace is ASCII whitespace, and
  `float()`/`parseFloat` read plain decimals (see "Left out").
- `Analytics`: z-scores, percentile ranks, the Fisher real return, carry
  and purchasing-power parity.
- `Alerts`: the sigma scanner's anomaly and divergence rules.
- `Registry`, `RegistryData`: the data registry (canonical keys, aliases,
  groups, sources) and its shipped contents.
- `Cache`, `Resolver`, `EntityAnalysis`: the TTL cache, `get_current_level` and
  the five analyses of one entity.
- `Graph`: the impact chain of related entities.
- `Macro`, `Valuation`, `Scorecard`: the macro panel's derived figures, the
  fair-value model and the risk-on/risk-off scorecard.
- `Market`, `Scraper`, `Tim`, `News`, `Seasonality`: the processing of
  downloaded quotes, scraped pages, export statistics, news feeds and
  monthly candles.
- `Research`, `Knowledge`: the research desk's formatting, date, chart and
  dedup helpers, and the economics lexicon.
- `CommandBar`: the command parser, the autocomplete highlight, and the
  source, change and gauge classifiers of `static/script.js`.

Network access, clocks, files and databases become parameters: a fetch is a
function argument whose result (or `Raised`) the model takes as given, and
"now" is a number passed in.

## Model

| member | source | states |
|---|---|---|
| Cache.Lookup | engine/cache.py:7-13 | a cached value is returned exactly when the key is stored and younger than the time-to-live, and it is the stored data |
| Cache.TtlCache.Get | engine/cache.py:7-13 | `get_cached` returns the lookup of the store and leaves it unchanged |
| Cache.TtlCache.Set | engine/cache.py:15-18 | `set_cached` overwrites only the one key, stamped with the current time |
| Cache.TtlCache.GetOrFetch | engine/resolver.py:109-118 | the fetcher is invoked exactly when the cache misses; the result is the hit, else the fetch result, else None when the fetcher raised |
| Cache.ReadThrough | engine/resolver.py:110-118 | a hit wins; a miss gives the fetcher's result, or None when it raised |
| Cache.SetThenGet | engine/cache.py:7-18 | a value just stored is served back under any positive time-to-live |
| Cache.SetOtherKey | engine/cache.py:15-18 | storing one key leaves every other key's lookup unchanged |
| Cache.ExpiryIsPermanent | engine/cache.py:11 | once an entry has expired it stays expired as time goes on |
| Cache.FreshWindow | engine/cache.py:11 | an entry stored at `ts` is served exactly while `now < ts + ttl` |
| Knowledge.GetContext | engine/knowledge.py:155-162 | a documented key gives exactly the table's entry; any other key gives the placeholder named after it, with no formula and no related metrics |
| Knowledge.Placeholder | engine/knowledge.py:157-162 | the default entry is named after the key and has no relationships and no formula |
| Knowledge.KeysListed | engine/knowledge.py:5-153 | the table holds exactly the seventeen keys listed |
| Knowledge.NamedAfterKeyIffUndocumented | engine/knowledge.py:155-162 | a lookup answers with an entry named after the key exactly when the key is not in the table |
| Knowledge.RelatedIffDocumented | engine/knowledge.py:155-162 | a lookup's entry lists related metrics exactly when the table documents the key |
| Knowledge.FormulaOnlyForRealRate | engine/knowledge.py:16-19 | only the real-rate entry carries a formula |
| Knowledge.LookupIsCaseSensitive | engine/knowledge.py:6-7 | keys match exactly: "CDS" is documented, "cds" gets the placeholder |
| Research.Cents | engine/research.py:278-279 | `x * 100` rounded to the nearest integer (within one half) |
| Research.TwoDigits | engine/research.py:279 | the two fraction digits of a two-place number read back as the number |
| Research.Group | engine/research.py:278 | the `,` grouping of the integer digits: dropping the commas gives the digits back, ends unchanged |
| Research.BodyValue | engine/research.py:279 | the ungrouped digits of a number of cents read back, as `float()` does, as that many hundredths |
| Research.BodyCommas | engine/research.py:277-279 | grouped and ungrouped output differ only by the thousands separators |
| Research.FixedReads | engine/research.py:276-279 | a formatted number is non-empty, starts with '-' exactly for negatives, has no ',' unless grouped, and reads back within half a cent of the number |
| Research.FmtCases | engine/research.py:273-280 | `_fmt`: "N/A" for None and "N/A", strings unchanged, no separator below 10000 in magnitude, and numbers read back within half a cent |
| Research.Fmt | engine/research.py:273-280 | a number prints non-empty, never as "N/A", with a leading '-' exactly when it is negative |
| Research.PlusReads | engine/research.py:286-287 | a '+' in front of an unsigned decimal leaves the value `float()` reads unchanged |
| Research.PlusBodyReads | engine/research.py:286-287 | a '+' and the digits of a number of cents read back as that many hundredths |
| Research.SignUp | engine/research.py:285-287 | `_sign` of a non-negative number starts with '+', ends with '%' and reads back within half a cent |
| Research.SignDown | engine/research.py:285-287 | `_sign` of a negative number starts with '-', ends with '%' and reads back within half a cent |
| Research.SignCases | engine/research.py:282-288 | `_sign`: "N/A" for None and "N/A", strings unchanged, and numbers as a signed percentage that reads back within half a cent |
| Research.Sign | engine/research.py:282-288 | a number prints as a percentage ending in '%' that starts with '+' exactly when it is non-negative and with '-' exactly when it is negative |
| Research.Weekday | engine/research.py:138 | `date.weekday()` of a day ordinal lies in 0..6 |
| Research.DaysBackFriday | engine/research.py:138-140 | days_back is in 1..7 and lands on the last Friday strictly before today |
| Research.PerfDate | engine/research.py:133-140 | "yesterday" gives today − 1 and wins over "friday"; "friday" gives the last Friday strictly before today (at most a week back); otherwise today |
| Research.MaxOf | engine/research.py:96 | `max(closes)` is one of the closes and bounds them all from above |
| Research.MinOf | engine/research.py:96 | `min(closes)` is one of the closes and bounds them all from below |
| Research.Stats | engine/research.py:94-97 | the chart statistics raise ZeroDivisionError exactly when the first close is 0; otherwise first, last, low and high are closes and bound the series |
| Research.PercentBack | engine/research.py:97 | the change percentage takes the first close to the last |
| Research.PercentSign | engine/research.py:97 | over a positive first close the change is non-negative exactly when the last close is not lower |
| Research.ChangeRecovers | engine/research.py:95-97 | `last == first * (1 + chg/100)`, and with a positive first close `chg >= 0` exactly when the series did not fall |
| Research.Stride | engine/research.py:100 | the sampling stride `max(1, n // 15)` is at least 1 |
| Research.SampleSize | engine/research.py:100 | `xs[::step]` is empty only for an empty series and has just enough points to reach its end |
| Research.SampleIndex | engine/research.py:100 | point k of `xs[::step]` is `xs[k * step]` |
| Research.SampleAt | engine/research.py:100 | the sample starts with the first point, holds every step-th point and no other, and reaches the end |
| Research.SampleBounded | engine/research.py:100 | a series sampled at its own stride keeps at most 29 points |
| Research.TriggeredMeans | engine/research.py:113-160 | a query triggers exactly when some trigger word occurs in its lower-cased text; ASCII letters and the Turkish capitals Ç Ğ Ö Ş Ü are folded, so "DAHA ÖNCE" triggers the archive search |
| Research.HistoryTriggerTurkish | engine/research.py:113-114 | "DAHA ÖNCE" in capitals triggers the history search: its Turkish capitals fold like Python's `lower()` |
| Research.PerfTriggerTurkish | engine/research.py:130-131 | a capitalised Turkish performance phrase triggers the performance search |
| Research.LongWords | engine/research.py:118 | the words kept are exactly the query's words longer than three characters |
| Research.SearchWords | engine/research.py:118-119 | the search words are the first three of the query's words longer than three characters, in query order, or all of them when there are fewer |
| Research.ArchiveHits | engine/research.py:117-120 | every hit of every search word is kept, the first word's hits first and in their order, and every hit comes from one of the searches |
| Research.Put | engine/research.py:124 | `d[title] = h` keeps the dict well formed: a new title is appended, a known one keeps its place |
| Research.ByTitle | engine/research.py:124 | the dict comprehension over the hits is well formed |
| Research.DictValues | engine/research.py:124 | `.values()` lists the entries in key order |
| Research.FirstTitle | engine/research.py:124 | the position where a title first occurs among the hits, or the number of hits |
| Research.FirstTitleSnoc | engine/research.py:124 | appending a hit moves no title's first occurrence |
| Research.LatestSnoc | engine/research.py:124 | the last hit with a title stays the last one when a hit with another title is appended |
| Research.PutLatest | engine/research.py:124 | after `d[title] = h` every entry is the last hit with its title |
| Research.PutCovers | engine/research.py:124 | after `d[title] = h` every title seen has an entry and every entry a title seen |
| Research.PutOrdered | engine/research.py:124 | after `d[title] = h` the keys stay in first-seen order |
| Research.ByTitleKeyed | engine/research.py:124 | the dict files each title's last hit, covers every title and keeps first-seen order |
| Research.DedupKeepsLatest | engine/research.py:124 | the de-duplicated hits have distinct titles, cover every title, keep each title's last hit, and list titles in first-seen order |
| Research.Dedup | engine/research.py:124 | every de-duplicated hit is one of the hits, and some hit survives whenever there was one |
| CommandBar.Dispatch | static/script.js:1350-1376 | the verb table: never nothing and never a comparison, "set" only with a non-empty value, always about the first token |
| CommandBar.Interpret | static/script.js:1343-1376 | a comparison exactly for three tokens with a case-insensitive "vs" in the middle, before any verb |
| CommandBar.Tokens | static/script.js:1350 | `split(/\s+/)` never returns an empty list |
| CommandBar.Parse | static/script.js:1336-1341 | `handleCommand` does nothing exactly for the empty input |
| CommandBar.ParseOf | static/script.js:1340-1350 | text that, without one leading '@', is words separated by single spaces is interpreted on those words |
| CommandBar.ParseWords | static/script.js:1340-1350 | `@` followed by words separated by single spaces is interpreted on exactly those words |
| CommandBar.AtOptional | static/script.js:1341 | the leading '@' is optional |
| CommandBar.SetCommand | static/script.js:1354-1357 | `@key set v1 v2 …` sets the override to the value words joined by single spaces, whatever the verb's case |
| CommandBar.SetWithoutValue | static/script.js:1354-1375 | `@key set` with no value opens the entity popup instead |
| CommandBar.ClearCommand | static/script.js:1359-1362 | `@key clear …` clears the override, ignoring further words |
| CommandBar.ChartCommand | static/script.js:1364-1367 | `@key graph …` and `@key chart …` switch the chart to the entity |
| CommandBar.LookupCommand | static/script.js:1374-1375 | a bare `@key` opens the entity's popup |
| CommandBar.CompareCommand | static/script.js:1343-1348 | `@a vs @b` compares a with b, whatever the case of "vs" |
| CommandBar.CompareBareTarget | static/script.js:1343-1348 | `@a vs b` compares the same pair as `@a vs @b` |
| CommandBar.Down | static/script.js:1256-1258 | ArrowDown stays within the rows, moves at least not up, and stays put exactly on the last row |
| CommandBar.Up | static/script.js:1260-1262 | ArrowUp stays within the rows, moves at least not down, and stays put exactly on the first row |
| CommandBar.DownTimesStops | static/script.js:1256-1258 | k presses of ArrowDown move k rows down, stopping at the last row |
| CommandBar.UpTimesStops | static/script.js:1260-1262 | k presses of ArrowUp move k rows up, stopping at the first row |
| CommandBar.AutoComplete.constructor | static/script.js:1206-1207 | the list starts empty, hidden, with no row highlighted |
| CommandBar.AutoComplete.Input | static/script.js:1235-1244 | an input that trims to nothing hides and empties the list; anything else asks for a search of the trimmed text without its '@' and changes nothing yet |
| CommandBar.AutoComplete.SearchDone | static/script.js:1293-1305 | a search's results replace the list, the first row is highlighted (−1 when empty), the list shows exactly when not empty |
| CommandBar.AutoComplete.Hide | static/script.js:1274-1308 | a failed search, a click outside or Escape hides the list and keeps it |
| CommandBar.AutoComplete.Focus | static/script.js:1282-1284 | focusing shows a list that has rows |
| CommandBar.AutoComplete.KeyDown | static/script.js:1246-1271 | hidden: only Enter acts and runs the trimmed command; shown: the arrows move the highlight by the clamps and Enter always picks the highlighted entity; the highlight stays a row of the list |
| CommandBar.SrcLabel | static/script.js:83-90 | no badge exactly for a missing, empty or "N/A" source; "S" exactly for a "SCRAPE" prefix, which wins over "+CALC" |
| CommandBar.EngineSourceLabels | static/script.js:83-90 | the engine's tags get their badges: "EVDS" A, "CALC" and "EVDS+CALC" C, every "SCRAPE:site" S |
| CommandBar.ChgCls | static/script.js:72 | "na" exactly for None and "N/A" |
| CommandBar.ChgClsAgreesWithSign | static/script.js:72 | a numeric change is "up" exactly when the research formatter writes it with '+', "down" exactly with '-' |
| CommandBar.GaugePercent | static/script.js:1153-1162 | a missing composite puts the gauge at 50; otherwise the composite is `2 * pct − 100` |
| CommandBar.GaugeRange | static/script.js:1162 | the gauge maps [−100, 100] onto [0, 100] and keeps the order |
| CommandBar.ScorecardGauge | static/script.js:1162 | every composite the scorecard computes puts the gauge inside its bar |
| Alerts.TruthyCloses | engine/alerts.py:39 | the fetched closes keep only present, non-zero closes |
| Alerts.ScanSeries | engine/alerts.py:30-41 | an explicit history of five or more points is used as is; a shorter one is replaced by the fetched closes when the fetch returns a non-empty list, and kept when it raises or returns nothing |
| Alerts.ZScoreValue | engine/alerts.py:46 | the z-score of a numeric current value; a non-numeric one raises exactly when the subtraction is reached (two usable points and a spread) |
| Alerts.Classify | engine/alerts.py:48-64 | an alert exactly when \|z\| ≥ 2: BLACK_SWAN/CRITICAL exactly when \|z\| ≥ 3, otherwise SIGMA/WARNING, carrying z |
| Alerts.ThresholdsNested | engine/alerts.py:49-56 | reaching three sigma implies reaching two |
| Alerts.CheckAnomaly | engine/alerts.py:20-64 | fewer than 20 points give no alert; otherwise the classification of the z-score of the series; only anomaly alerts come out |
| Alerts.ExplicitHistoryIgnoresFetch | engine/alerts.py:33 | a history of five or more points is judged on its own, whatever the fetch gives |
| Alerts.NonNumericNeverAlerts | engine/alerts.py:46 | a non-numeric current value never yields an alert: nothing, or an exception |
| Alerts.AlertSideOfMean | engine/alerts.py:46-62 | an alerted z-score is non-negative exactly when the current value is at or above the mean of the history |
| Alerts.GreaterThan | engine/alerts.py:79-92 | `a > bound` holds for numbers as expected and raises for None and strings |
| Alerts.AbsLessThan | engine/alerts.py:79 | `abs(a) < bound` holds for numbers as expected and raises for None and strings |
| Alerts.HiddenStress | engine/alerts.py:73-84 | rule 1 is silent unless the key is usdtry with a CDS entry, and gives at most one alert |
| Alerts.FragileRally | engine/alerts.py:86-97 | rule 2 is silent unless the key is bist100 with a VIX entry, and gives at most one alert |
| Alerts.CheckDivergence | engine/alerts.py:66-99 | keys other than usdtry and bist100 give None; a non-empty answer holds exactly one alert |
| Alerts.HiddenStressExactly | engine/alerts.py:75-84 | the hidden-stress alert fires exactly when \|change\| < 0.1 and the CDS change exceeds 2, with the WARNING message and the CDS change |
| Alerts.HiddenStressMissingChange | engine/alerts.py:77-79 | a CDS entry whose change is None raises when the lira is flat and is silent otherwise |
| Alerts.FragileRallyExactly | engine/alerts.py:88-97 | the fragile-rally alert fires exactly when BIST is up more than 1% and VIX more than 5%, with the CAUTION message |
| Alerts.DivergenceCases | test_divergence.py:8-45 | the three scripted cases: flat lira with CDS +3.5% alerts, lira +1% with CDS −2% does not, BIST +1.5% with VIX +6% alerts |
| Alerts.BlackSwanCase | tests/test_alerts.py:10-17 | twenty points cycling 8..12 put 15 beyond three sigma |
| Alerts.FlatHistoryCase | tests/test_alerts.py:19-22 | twenty identical points and 10.1 give no alert |
| Alerts.FetchedHistoryCase | tests/test_alerts.py:24-42 | with no explicit history, fifty fetched closes (101 then 100s) put 105 beyond three sigma |
| Alerts.TruthyClosesPresent | engine/alerts.py:39 | non-zero present closes pass the filter unchanged |
| Analytics.Clean | engine/analytics.py:26 | dropping the None points never lengthens the history |
| Analytics.CleanMembers | engine/analytics.py:26-50 | the cleaned history holds exactly the present values |
| Analytics.SumSqDev | engine/analytics.py:38 | a sum of squared deviations is never negative |
| Analytics.SampleVariance | engine/analytics.py:38 | the sample variance (divisor N − 1) is never negative |
| Analytics.ZScoreOf | engine/analytics.py:13-43 | fewer than two usable points give 0.0; otherwise the result is a ratio exactly when the sample variance is positive, its numerator the current value minus the mean of the history and its variance the sample variance |
| Analytics.ConstantHistoryScoresZero | engine/analytics.py:40-41 | a constant history has zero variance, so its z-score is 0.0 whatever the current value |
| Analytics.MomentsShift | engine/analytics.py:37-38 | shifting every point by d shifts the mean by d and leaves the sample variance unchanged |
| Analytics.ZScoreShiftInvariant | engine/analytics.py:37-43 | shifting every point by d shifts the mean by d and leaves the variance, hence the z-score, unchanged |
| Analytics.ZScoreSign | engine/analytics.py:43 | the z-score is non-negative exactly when the current value is at or above the mean |
| Analytics.ZScoreExample | tests/test_analytics.py:6-14 | 14 against [8, 9, 10, 11, 12] is 4 / sqrt(2.5): at least two sigma, below three |
| Analytics.ZScoreFallbacks | tests/test_analytics.py:16-20 | the empty, single-point, constant and None-padded histories give 0.0 |
| Analytics.CountBelow | engine/analytics.py:55 | the count of points below the current value is at most the number of points |
| Analytics.PercentileRank | engine/analytics.py:45-56 | the rank lies in [0, 1], and is 0.5 without usable data |
| Analytics.CountBelowMonotone | engine/analytics.py:55 | a larger value counts at least as many points below it |
| Analytics.CountBelowExtremes | engine/analytics.py:55 | no point counts below a value at or under all of them; all count below a value above all of them |
| Analytics.PercentileMonotone | engine/analytics.py:45-56 | a higher current value never ranks lower |
| Analytics.PercentileLowest | engine/analytics.py:45-56 | a value at or below every point ranks 0.0 |
| Analytics.PercentileHighest | engine/analytics.py:45-56 | a value above every point ranks 1.0 |
| Analytics.RealReturn | engine/analytics.py:58-70 | above −100% inflation the result r satisfies the Fisher equation (1 + r)(1 + i) = 1 + n; at or below it, 0.0 |
| Analytics.RealReturnPositive | engine/analytics.py:58-70 | the real return is positive exactly when the nominal rate beats inflation |
| Analytics.ImpliedCarry | engine/analytics.py:72-89 | a zero spot raises ZeroDivisionError; otherwise carry plus depreciation is the yield differential |
| Analytics.CarryFlatSpot | engine/analytics.py:85-89 | with an unchanged expected spot the carry is the whole yield differential |
| Analytics.FairValuePpp | engine/analytics.py:91-112 | equal inflation leaves the spot fair; the fair value exceeds the spot by spot times the inflation differential |
| Analytics.PppMonotone | engine/analytics.py:111-112 | for a positive spot, higher home inflation gives a higher fair value |
| Analytics.ReferenceCases | tests/test_analytics.py:22-55 | 35 ranks 0.6 among five points; Fisher 50% over 40% is 1/14; carry 0.45 − 1/3; PPP 43.5 |
| Analytics.Present | engine/analytics.py:26 | wrapping points as present keeps their number |
| Analytics.CleanPresent | engine/analytics.py:26 | cleaning a list of present points gives the points back |
| EntityAnalysis.AnomalyStep | engine/resolver.py:19-27 | the alert key is present exactly when the scanner, on the key's own fetched history, returns an alert without raising |
| EntityAnalysis.ValuationStep | engine/resolver.py:29-35 | the valuation key is present exactly when the fair-value model returns a result without raising, and holds that result |
| EntityAnalysis.GraphStep | engine/resolver.py:37-43 | the graph key is present exactly when the impact chain does not raise and is non-empty, and holds the chain |
| EntityAnalysis.SeasonalSymbol | engine/resolver.py:56-60 | the symbol is `technical_key or key` of a registered entity, never empty |
| EntityAnalysis.SeasonalityStep | engine/resolver.py:45-65 | only seasonal keys (tickers and the four majors) with a symbol get a profile; when the ten-year fetch and the seasonality do not raise, the key holds exactly what the seasonality returns |
| EntityAnalysis.Peer | engine/resolver.py:71-83 | an unregistered peer adds nothing; a registered one raises when its level raises, and is included, with its value and change, exactly when its value is truthy |
| EntityAnalysis.RelatedMetrics | engine/resolver.py:69-83 | the CDS peer for usdtry, the VIX peer for bist100, and nothing for other keys |
| EntityAnalysis.DivergenceStep | engine/resolver.py:67-95 | no divergence when the related metrics raise or are empty; otherwise the first alert of check_divergence exactly when it answers with one; never for keys other than usdtry and bist100 |
| EntityAnalysis.GetEntityAnalysis | engine/resolver.py:12-97 | the orchestration fills each key from its own step, each isolated from the others |
| EntityAnalysis.Analyze | engine/resolver.py:12-97 | a valuation appears only for a registered entry with a model, seasonality only for seasonal keys, and divergence only for the lira and BIST 100 |
| EntityAnalysis.RunAnomaly | engine/resolver.py:19-27 | block 1 computes the anomaly step |
| EntityAnalysis.RunValuation | engine/resolver.py:29-35 | block 2 computes the valuation step |
| EntityAnalysis.RunGraph | engine/resolver.py:37-43 | block 3 computes the graph step |
| EntityAnalysis.RunSeasonality | engine/resolver.py:45-65 | block 4 computes the seasonality step |
| EntityAnalysis.RunDivergence | engine/resolver.py:67-95 | block 5 computes the divergence step |
| EntityAnalysis.SeasonalityStepAsWritten | engine/resolver.py:46-50 | as written, block 4 raises for exactly the seasonal keys and never gives a profile |
| EntityAnalysis.DivergenceStepAsWritten | engine/resolver.py:68-80 | as written, block 5 raises for exactly the lira and BIST 100 and never gives an alert |
| EntityAnalysis.Caught | engine/resolver.py:44-88 | a try block's key is set only from a step that did not raise |
| EntityAnalysis.AsWrittenDropsSeasonalityAndDivergence | engine/resolver.py:12-90 | as written, no analysis carries "seasonality" or "divergence"; the other keys are those of the intended orchestration |
| EntityAnalysis.LongHistoryOnlyFeedsSeasonality | engine/resolver.py:45-65 | the ten-year history and the clock change nothing but the seasonality key, even when the fetch raises |
| EntityAnalysis.ValuationFailureIsIsolated | engine/resolver.py:29-35 | a raising valuation model leaves out only the valuation key |
| EntityAnalysis.SymbolIsCanonicalKey | engine/resolver.py:58 | an entry without a technical key is looked up under its canonical key |
| EntityAnalysis.LiraDivergence | engine/resolver.py:71-92 | for the lira with a numeric CDS change, the divergence fires exactly when the lira is flat and CDS rises past 2%, with the hidden-stress alert |
| EntityAnalysis.BistDivergence | engine/resolver.py:77-92 | for BIST 100 with a numeric VIX change, the divergence fires exactly when the index is up more than 1% and VIX more than 5%, with the CAUTION fragile-rally alert |
| EntityAnalysis.CdsWithoutChangeNeverDiverges | engine/resolver.py:71-92 | a CDS level without a change can never give the lira a divergence |
| Registry.Lookup | engine/registry.py:181-186 | `DATA_REGISTRY.get`: an entry is found exactly for a registered name, and it is that name's listed entry |
| Registry.LookupAbsent | engine/registry.py:181 | a name no entry carries is not found |
| Registry.LookupAppend | engine/registry.py:6-133 | looking up in a longer registry tries the earlier entries first |
| Registry.LookupUnique | engine/registry.py:6-133 | with unique names, a listed name finds its own entry |
| Registry.IdsInGroup | engine/registry.py:188-190 | the names of a group are registered names of that group |
| Registry.IdsInGroupComplete | engine/registry.py:188-190 | every entry of a group has its name in the group's list |
| Registry.GroupsOf | engine/registry.py:136-141 | every entry's group occurs among the registry's groups |
| Registry.GroupAliases | engine/registry.py:135-141 | GROUP_ALIASES has a key exactly for the groups that occur |
| Registry.IdsInGroupAbsent | engine/registry.py:135-141 | a group no entry has lists no names |
| Registry.GroupsOfSnoc | engine/registry.py:136-141 | one more entry adds its group to the groups |
| Registry.IdsInGroupSnoc | engine/registry.py:136-141 | one more entry of the group appends its name to the group's list |
| Registry.GroupAliasesSnoc | engine/registry.py:136-141 | one more entry appends its name to its group's list, opening the list when needed |
| Registry.IdsInGroupDistinct | engine/registry.py:136-141 | with unique names, a group's list has no repeats |
| Registry.GroupAliasesPartition | engine/registry.py:135-141 | every name is listed under its own group, each list only holds that group's names, and no list repeats a name |
| Registry.AddAlias | engine/registry.py:137-141 | one pass of the import-time loop extends the index by that entry |
| Registry.BuildGroupAliases | engine/registry.py:135-141 | the import-time loop builds exactly GROUP_ALIASES |
| Registry.FuzzyScore | engine/registry.py:165-171 | the rank is 3 when the query is in the name, 2 when it is in the title only, else 1 |
| Registry.ViewOf | engine/registry.py:158 | a result dictionary carries the entry's own "key" field, which overrides the name |
| Registry.FuzzyHits | engine/registry.py:162-172 | the fuzzy hits are no more than the entries, each fuzzy and ranked 1 to 3 |
| Registry.ScoreDescTotal | engine/registry.py:174 | descending order on scores is a strict total order |
| Registry.GroupHits | engine/registry.py:156-159 | group results are at most the group's names, each marked as a group match |
| Registry.FuzzyHitsSnoc | engine/registry.py:162-172 | scanning one more entry appends its hit exactly when its searchable text contains the query |
| Registry.ScanEntry | engine/registry.py:162-172 | one pass of the scan extends the hits by that entry |
| Registry.ScanFuzzy | engine/registry.py:162-172 | the scan loop computes the fuzzy hits in registry order |
| Registry.SearchRegistry | engine/registry.py:143-176 | search_registry computes the search of the normalised query: exact name, then group, then the ranked fuzzy scan |
| Registry.NormalizeLower | engine/registry.py:145 | lower-casing the query first changes nothing |
| Registry.NormalizeCanonical | engine/registry.py:145 | a lower-case, trimmed query without a leading '@' is searched as written |
| Registry.SearchIgnoresCase | engine/registry.py:145 | a query and its lower-case form give the same results |
| Registry.SearchFound | engine/registry.py:151-154 | a registered normalised query gives exactly that one entry, marked exact |
| Registry.SearchExactName | engine/registry.py:151-154 | an exact name returns its entry alone, with its locator as "key" |
| Registry.SearchGroupName | engine/registry.py:156-160 | a group name that is not an entry name returns every member of the group, uncapped |
| Registry.GroupHitsAllFound | engine/registry.py:156-159 | registered names give one result each |
| Registry.SearchFuzzyShape | engine/registry.py:162-176 | a fuzzy search returns at most fifteen hits, the first ones of the scan sorted by descending score with registry order kept among equal scores |
| Registry.FuzzyHitsSound | engine/registry.py:162-172 | every fuzzy hit is an entry whose searchable text contains the query, with its rank |
| Registry.FuzzyHitsComplete | engine/registry.py:162-172 | every entry whose searchable text contains the query is a fuzzy hit |
| Registry.ResolveEntity | engine/registry.py:179-185 | an entry is resolved exactly for a registered name, with "key" set to that name |
| Registry.GroupEntities | engine/registry.py:188-190 | exactly the group's entries in registry order, one view for each, each with its locator as "key" |
| Registry.ResolveVersusSearchKey | engine/registry.py:151-185 | resolving a name puts that name in "key", while searching for it puts the entry's locator there |
| RegistryData.Listed | engine/registry.py:8-9 | an entry written with name, group, key, source, unit and explanation has no chart flag and none of the optional fields |
| RegistryData.Charted | engine/registry.py:78-79 | a market entry carries the chart flag and none of the other optional fields |
| RegistryData.RatesShipped | engine/registry.py:7-17 | the policy-rate entries have no optional extras and none is named "vix" |
| RegistryData.BondsShipped | engine/registry.py:19-35 | the bond and risk entries have no optional extras and none is named "vix" |
| RegistryData.InflationShipped | engine/registry.py:37-49 | the inflation entries have no optional extras and none is named "vix" |
| RegistryData.EconomyShipped | engine/registry.py:51-69 | the real-economy entries have no optional extras and none is named "vix" |
| RegistryData.CbrtShipped | engine/registry.py:71-75 | the CBRT entries have no optional extras and none is named "vix" |
| RegistryData.EquitiesShipped | engine/registry.py:77-95 | the equity entries have no optional extras and none is named "vix" |
| RegistryData.FxShipped | engine/registry.py:97-105 | the FX entries have no optional extras and none is named "vix" |
| RegistryData.CommoditiesShipped | engine/registry.py:107-119 | the commodity entries have no optional extras and none is named "vix" |
| RegistryData.CryptoShipped | engine/registry.py:121-125 | the crypto entries have no optional extras and none is named "vix" |
| RegistryData.ScorecardShipped | engine/registry.py:127-131 | the scorecard entries have no optional extras and none is named "vix" |
| RegistryData.DataRegistryShipped | engine/registry.py:6-133 | no shipped entry has optional extras or is named "vix" |
| RegistryData.DataRegistryPlain | engine/registry.py:6-133 | no shipped entry sets "technical_key", "valuation" or "correlations" |
| RegistryData.NoVixEntry | engine/registry.py:6-133 | "vix" is not registered, so bist100 never gets a VIX peer |
| RegistryData.ScorecardLookup | engine/registry.py:6-133 | in the shipped registry, "scorecard" finds the Macro Scorecard entry (no earlier entry has that name), and "scorecard" is a group there |
| RegistryData.ScorecardIsExact | engine/registry.py:127-160 | in the shipped registry, "scorecard" is both an entry and a group; searching it returns the Macro Scorecard entry alone, with "composite" as its key |
| Resolver.MarketLevel | engine/resolver.py:120-125 | the market branch answers exactly when the snapshot is truthy and holds the ticker, with its price, the entry's unit and its change |
| Resolver.BondLevel | engine/resolver.py:134-140 | spread, curve and risk-premium fields come back in basis points, scaled by 100 when numeric; other bonds in "%"; never a change |
| Resolver.MacroLevel | engine/resolver.py:127-144 | policy rates first, then bonds, then the CDS record's "val" for the "cds" key; nothing from a falsy panel |
| Resolver.TurkeyMacroScan | engine/resolver.py:150-152 | the first item whose "key" is the entity name or the technical key gives its "last" and "unit"; none matches means no answer |
| Resolver.TurkeyMacroLevel | engine/resolver.py:146-152 | a falsy list gives nothing; otherwise the scan's answer |
| Resolver.EquityRiskLevel | engine/resolver.py:154-162 | the equity-risk record answers first with the entry's unit (default "%"); otherwise the panel's bonds answer exactly when they hold the key, in "%" |
| Resolver.CbrtLevel | engine/resolver.py:164-171 | the tracker answers for aofm and policy_rate with the current rate in "%", and for next_meeting with the date |
| Resolver.GoldCorrLevel | engine/resolver.py:173-178 | gold_corr and composite read the USD correlation, unitless |
| Resolver.ScorecardLevel | engine/resolver.py:180-183 | only the composite key reads the scorecard's composite, in points |
| Resolver.BankingLevel | engine/resolver.py:185-190 | the banking monitor answers exactly for a key it holds, with the entry's unit |
| Resolver.SentimentField | engine/resolver.py:198-201 | the field name always ends in "_score", and a key already ending so is kept |
| Resolver.SentimentLevel | engine/resolver.py:192-207 | a truthy snapshot with no technical key raises; nothing else does |
| Resolver.TradeLevel | engine/resolver.py:209-216 | trade totals answer only for total_exports, with the entry's unit |
| Resolver.GetCurrentLevel | engine/resolver.py:99-218 | an unknown source gives (None, None, None); with the banking, sentiment and trade fetchers taken as given, only the sentiment branch can raise; a market entry reads the market snapshot |
| Resolver.MacroPolicyRateFirst | engine/resolver.py:131-133 | a policy-rate hit wins over a bond of the same name, in "%" with no change |
| Resolver.MacroBondScaled | engine/resolver.py:134-140 | a spread comes back as 100 times the yield difference, in basis points |
| Resolver.MacroFallsBackToTurkeyMacro | engine/resolver.py:127-152 | a macro entry the panel cannot answer is looked up in the Turkey-macro list |
| Resolver.MissingTechnicalKey | engine/resolver.py:105-218 | without a technical key only the Turkey-macro match on the entity name can answer, and sentiment raises exactly on a truthy snapshot |
| Resolver.SentimentLookupOrder | engine/resolver.py:192-207 | "<key>_score" is tried before the key itself, else nothing |
| Resolver.SentimentFieldExamples | engine/resolver.py:198-201 | "panic" maps to "panic_score"; "greed_score" stays as it is |
| Graph.LinkedEntity | engine/graph.py:31-39 | a registered correlated key resolves to its entry; an unknown one becomes a market ticker named after itself |
| Graph.LinkRow | engine/graph.py:43-71 | a raising level raises; a None value gives the "No Data" row; otherwise the row carries the value and change, and the z-score of the alert, or 0.0 without one |
| Graph.NonNumericAlertsNothing | engine/graph.py:59-61 | the anomaly check on a non-numeric value never alerts |
| Graph.Steps | engine/graph.py:30-72 | running each step in order succeeds exactly when every step does, and then gives each step's result in order |
| Graph.Rows | engine/graph.py:30-72 | the chain's rows, one per key in order, unless some row raises |
| Graph.ImpactChain | engine/graph.py:23-27 | an unknown trigger or one without correlations gives []; otherwise the rows of its correlations |
| Graph.FetchRow | engine/graph.py:30-72 | the loop body computes the row of one correlated key |
| Graph.RowsNext | engine/graph.py:30-72 | one more key appends its row, or makes the chain raise |
| Graph.GetImpactChain | engine/graph.py:12-73 | get_impact_chain's loop computes the impact chain |
| Graph.StepsRaisedPrefix | engine/graph.py:30-72 | once a step raises, the whole run raises |
| Graph.RowsRaisedPrefix | engine/graph.py:30-72 | once a row raises, the whole chain raises |
| Graph.UnregisteredKeyReadsMarket | engine/graph.py:36-47 | an unregistered key is read from the market snapshot under its own name; "No Data" exactly when that has no price |
| Graph.ChainFollowsCorrelations | engine/graph.py:30-72 | the chain lists every correlated key once, in the registry's order |
| Valuation.SafeFloat | engine/valuation.py:36-40 | `float(v)`: numbers pass, strings are parsed, None gives None |
| Valuation.InputValues | engine/valuation.py:25-33 | the inputs gathered are exactly the registered ones, each mapped to its resolved value; the gathering raises exactly when some registered input's resolver raises |
| Valuation.CollectInputs | engine/valuation.py:25-33 | the loop over the inputs computes the input dictionary |
| Valuation.InputValuesRaisedPrefix | engine/valuation.py:25-33 | once an input raises, the whole gathering raises |
| Valuation.Ppp | engine/valuation.py:43-53 | with a CPI the gap is CPI − 2.5, signalled "Undervalued" exactly when positive; without one, "Waiting for CPI Data" |
| Valuation.MissingSpreadInputs | engine/valuation.py:69-71 | the missing list names US10Y exactly when the US yield is missing and CDS exactly when CDS is |
| Valuation.SovereignSpread | engine/valuation.py:55-72 | with both inputs the fair yield is US 10Y + CDS/100 and the gap is the current value minus it, raising for a non-numeric current value; otherwise the waiting message names what is missing |
| Valuation.ErpYield | engine/valuation.py:74-88 | the premium 100/PE − the 10-year yield is reported exactly when both parse and the PE is positive; otherwise "Waiting for PE/Rates" |
| Valuation.ApplyModel | engine/valuation.py:42-90 | an unknown model gives None; only the spread model on a non-numeric value raises |
| Valuation.ComputeFairValue | engine/valuation.py:8-90 | compute_fair_value computes the resolve-gather-apply specification |
| Valuation.FairValueSpec | engine/valuation.py:8-90 | an unknown name gives no valuation, and anything else than no valuation needs a registered entry with a valuation model |
| Valuation.NoValuation | engine/valuation.py:16-18 | unknown names, entries without a model and unknown model kinds give None |
| Valuation.ShippedRegistryValuesNothing | engine/valuation.py:16-18 | a registry whose entries carry no "valuation" values nothing |
| Valuation.PlaceholderIsNotANumber | engine/valuation.py:36-40 | the "N/A" placeholder does not parse |
| Valuation.SpreadExample | engine/valuation.py:59-67 | US 10Y 4% and CDS 250 give a fair yield of 6.5%, so 30% is 23.5 points above it |
| Valuation.MissingBothMessage | engine/valuation.py:69-72 | with both inputs missing the message lists "US10Y, CDS" |
| Seasonality.MonthChanges | engine/seasonality.py:26-31 | a month's list is non-empty exactly when some used candle falls in that month |
| Seasonality.Wins | engine/seasonality.py:38 | the number of up moves is at most the number of moves |
| Seasonality.Stats | engine/seasonality.py:36-43 | the count is the sample size, the average is the mean move, and the win rate is the share of up moves in percent, 100 exactly when every move is up and 0 exactly when none is |
| Seasonality.MonthlyMap | engine/seasonality.py:34-43 | a month has an entry exactly when it is one of the twelve and has a used candle |
| Seasonality.MonthChangesNext | engine/seasonality.py:26-31 | one more candle extends its month's list by its move when it is used, and leaves the list alone otherwise |
| Seasonality.BucketedNext | engine/seasonality.py:29-31 | bucketing one candle keeps every bucket equal to its month's list |
| Seasonality.MonthsValidNext | engine/seasonality.py:24-31 | the twelve buckets stay sufficient over a candle that is not a used one outside them |
| Seasonality.BucketCandle | engine/seasonality.py:29-31 | one pass succeeds exactly when the candle is unused or in one of the twelve months, and then the buckets stay equal to the month lists |
| Seasonality.BucketByMonth | engine/seasonality.py:24-31 | the first loop raises exactly on a used candle outside the twelve months; otherwise each of the twelve buckets holds that month's moves in history order |
| Seasonality.SummariseMonths | engine/seasonality.py:34-43 | the second loop computes the monthly map |
| Seasonality.GetMonthlySeasonality | engine/seasonality.py:12-57 | get_monthly_seasonality computes the seasonality specification |
| Seasonality.NoneWithoutUsableCandles | engine/seasonality.py:20-46 | the result raises exactly on a used candle outside the twelve months and is None exactly when no candle is used |
| Seasonality.CurrentMonthLookup | engine/seasonality.py:50-55 | the current month's entry is present exactly when that month has data, and is then that month's statistics |
| Seasonality.UsedCount | engine/seasonality.py:29 | the number of used candles is at most the history's length |
| Seasonality.CountsUpToSnoc | engine/seasonality.py:29-31 | a candle adds one to the cumulative sample size exactly when it is used and its month is in range |
| Seasonality.CountsAddUp | engine/seasonality.py:24-42 | when every used candle has a valid month, the twelve sample sizes add up to the number of used candles |
| Seasonality.CountsUpToEmpty | engine/seasonality.py:24 | an empty history has no samples in any month |
| Seasonality.AllUpMonth | engine/seasonality.py:37-38 | a month whose every move is up has a win rate of 100 and a positive average |
| Seasonality.AllPositiveWins | engine/seasonality.py:38 | when every move is up, every move counts as a win |
| Seasonality.AllPositiveSum | engine/seasonality.py:37 | moves that are all up add up to a positive total |
| Scorecard.SafeFloat | engine/scorecard.py:14-20 | None and "N/A" give None and numbers pass through unchanged |
| Scorecard.DecimalComma | engine/scorecard.py:18 | a decimal comma reads as a decimal point |
| Scorecard.PercentSuffix | engine/scorecard.py:18 | a trailing percent sign is dropped before parsing |
| Scorecard.FirstWithKey | engine/scorecard.py:27-28 | the scan stops at the first item whose "key" matches, and no earlier item matches |
| Scorecard.FindMetric | engine/scorecard.py:23-30 | a falsy store gives None; otherwise the first matching item's parsed "last", and None when no item matches |
| Scorecard.YieldCurveLadder | engine/scorecard.py:53-62 | the spread scores 1.0 above 2, 0.3 above 0, -0.5 above -1 and -1.0 otherwise, each band exactly |
| Scorecard.RealCarryLadder | engine/scorecard.py:74-82 | the carry scores 1.0 above 5, 0.5 above 0, -0.3 above -3 and -1.0 otherwise, each band exactly |
| Scorecard.PpiCpiLadder | engine/scorecard.py:87-95 | the gap scores 0.5 below -5, 0.3 below 0, -0.3 below 5 and -1.0 otherwise, each band exactly |
| Scorecard.ErpLadder | engine/scorecard.py:100-108 | the premium scores 1.0 above 3, 0.3 above 0, -0.5 above -5 and -1.0 otherwise, each band exactly |
| Scorecard.CdsLadder | engine/scorecard.py:115-123 | the CDS scores 1.0 below 200, 0.3 below 350, -0.5 below 500 and -1.0 otherwise, each band exactly |
| Scorecard.GoldCorrLadder | engine/scorecard.py:127-133 | the correlation scores -0.8 above 0.85, -0.3 above 0.5 and 0.5 otherwise, each band exactly |
| Scorecard.MacroCdsAsWritten | engine/scorecard.py:114 | as written, the fallback CDS is the parsed "value" field of the macro snapshot's CDS record, and None without a snapshot or record |
| Scorecard.MacroCds | engine/macro.py:33-54 | corrected, the fallback CDS is the parsed "val" field, the one the macro panel fills |
| Scorecard.MacroCdsAsWrittenMisses | engine/scorecard.py:114 | a CDS record shaped as the macro panel builds it is never read as written |
| Scorecard.MacroCdsReadsPanel | engine/macro.py:43 | read from "val", a panel record holding a number yields that number |
| Scorecard.ReadingsOf | engine/scorecard.py:44-126 | without the macro snapshot the yields, rates and fallback CDS are absent; without the Turkey list CPI, the gap and the primary CDS are; a falsy premium or correlation record gives no reading |
| Scorecard.YieldCurve | engine/scorecard.py:51-62 | the component is present exactly when both yields parse, read on their difference |
| Scorecard.RealCarry | engine/scorecard.py:66-82 | the component is present exactly when all four rates parse, read on the Turkish real rate minus the US one |
| Scorecard.PpiCpi | engine/scorecard.py:86-95 | the component is present exactly when the gap parses, read on it |
| Scorecard.Erp | engine/scorecard.py:99-108 | the component is present exactly when the premium parses, read on it |
| Scorecard.Cds | engine/scorecard.py:111-123 | the component is present exactly when either CDS reading is, read on the Turkey-list figure first and the macro one otherwise |
| Scorecard.GoldCorr | engine/scorecard.py:126-133 | the component is present exactly when the correlation parses, read on it |
| Scorecard.ComponentOf | engine/scorecard.py:47-133 | every component present is scored on the allowed scale |
| Scorecard.Scores | engine/scorecard.py:47-133 | the scores dictionary has an entry exactly for each component whose readings are present, each on the allowed scale |
| Scorecard.Signal | engine/scorecard.py:158-163 | RISK-ON exactly above 25, NEUTRAL exactly in (-25, 25], RISK-OFF exactly at or below -25 |
| Scorecard.CorrectedReadingsOf | engine/scorecard.py:111-114 | the corrected readings differ from the as-written ones only in the fallback CDS, which is read from "val" |
| Scorecard.PanelCdsNeverScored | engine/scorecard.py:111-115 | as written, with no "cds_5y" in the Turkey list and a panel CDS record, the card never has a "cds" score |
| Scorecard.CdsFallbackAdds | engine/scorecard.py:111-123 | a fallback CDS figure where there was none adds exactly the CDS entry, scored on the CDS ladder |
| Scorecard.PanelCdsScored | engine/scorecard.py:111-123 | corrected, the same inputs score the panel's figure on the CDS ladder and one more metric is available |
| Scorecard.ComputeScorecard | engine/scorecard.py:33-171 | compute_scorecard computes the scorecard specification on its four snapshots |
| Scorecard.CardOf | engine/scorecard.py:145-171 | the card counts its own scores, lists six weighted metrics, and its signal agrees with its composite: RISK-ON exactly above 25, RISK-OFF exactly at or below -25 |
| Scorecard.ScorecardSpec | engine/scorecard.py:33-171 | the scorecard's composite lies in [-100, 100] and at most the six weighted metrics are available |
| Scorecard.PresentAdd | engine/scorecard.py:47-133 | each scoring block adds its component's entry exactly when it is present |
| Scorecard.FillScores | engine/scorecard.py:47-133 | the six scoring blocks build the scores dictionary |
| Scorecard.WeighScores | engine/scorecard.py:145-150 | the weights loop accumulates the total weight and weighted sum over the present components |
| Scorecard.ScaledBetween | engine/scorecard.py:149 | a score in [-1, 1] times a non-negative weight lies within that weight |
| Scorecard.WeightedStep | engine/scorecard.py:147-150 | one loop step changes the weighted sum by no more than the weight it adds |
| Scorecard.WeightedSumBounded | engine/scorecard.py:145-150 | the weighted sum never exceeds the total weight in absolute value |
| Scorecard.TotalWeightPositive | engine/scorecard.py:145-152 | the total weight is positive exactly when some weighted component is present |
| Scorecard.ShippedWeightsPositive | engine/scorecard.py:136-143 | every shipped weight is positive |
| Scorecard.NameListed | engine/scorecard.py:136-143 | every component has a weight |
| Scorecard.CompositeBounded | engine/scorecard.py:152-155 | the composite always lies in [-100, 100] |
| Scorecard.EmptyScorecard | engine/scorecard.py:152-163 | no scores exactly when the total weight is 0, and then the composite is 0 and the signal NEUTRAL |
| Scorecard.OnlyOneCounts | engine/scorecard.py:147-150 | with one component present the weighted sum is its score times the total weight |
| Scorecard.SingleComponent | engine/scorecard.py:152-153 | a single present component decides the composite alone: its score times 100 |
| Scorecard.AvailableAtMostTotal | engine/scorecard.py:169-170 | the metrics available never exceed the six weighted ones |
| Macro.EvdsLastValue | engine/macro.py:147-154 | "N/A" when no item has the column; otherwise the column of an item with no later item carrying one |
| Macro.DecimalCommaReading | engine/macro.py:164 | an EVDS decimal written with a comma reads as that decimal |
| Macro.Sampled | engine/macro.py:161-162 | one sample per item |
| Macro.Readable | engine/macro.py:163-165 | the readable samples are at most as many as the samples |
| Macro.ReadableAppend | engine/macro.py:161-165 | keeping the readable samples of two stretches keeps those of the whole |
| Macro.ParsedAppend | engine/macro.py:161-165 | the readings of two stretches of a series are the readings of the whole |
| Macro.ParsedOne | engine/macro.py:162-165 | an item enters the series, with its date and number, exactly when its column reads as a number |
| Macro.ParseSeries | engine/macro.py:160-165 | the parsing loop keeps exactly the readable samples in order |
| Macro.PctChangeInverse | engine/macro.py:168-169 | growing the base by the percentage change gives back the newer reading |
| Macro.EvdsYoyFromIndex | engine/macro.py:156-170 | fewer than two readings give "N/A" twice and no date; month-on-month is present exactly when the previous reading is non-zero and year-on-year exactly when a non-zero 13th-from-last reading exists, each the change that turns that reading into the newest |
| Macro.CalcGdpYoy | engine/macro.py:240-251 | fewer than five readings give "N/A"; the growth is present exactly when the 5th-from-last reading is non-zero and is the change from it to the newest, dated by the newest |
| Macro.LatestFacts | engine/macro.py:204-211 | the last value set comes from an element with no later value, and there is none only when no element sets one |
| Macro.LatestYieldFacts | engine/macro.py:204-211 | the yield kept for a tenor is that of the last table row setting it, and stays "N/A" only when no row does |
| Macro.ScanBondTable | engine/macro.py:204-211 | the table loop leaves each Turkish yield at the last row that sets it |
| Macro.DeriveSpreads | engine/macro.py:231-237 | the TR-US spread is present exactly when both 10-year yields are, and the 2s10s curve exactly when both Turkish yields are, each the difference of its legs |
| Macro.FetchBondYields | engine/macro.py:172-238 | the Turkish yields come from the table, the US 10-year is passed through, and the two spreads are derived exactly when their legs are known |
| Macro.Previous | engine/macro.py:283-285 | the previous rate, when present, differs from the current one |
| Macro.Changes | engine/macro.py:286-289 | the collapsed history is no longer than the history and ends at the current rate |
| Macro.ChangesAreRunStarts | engine/macro.py:286-289 | collapsing keeps exactly the readings that start a run of equal rates |
| Macro.ChangesFacts | engine/macro.py:286-289 | the collapsed history starts with the first reading and no two neighbours share a rate |
| Macro.LastChangeIsNewest | engine/macro.py:279 | the last change date is the date of the newest collapsed entry when there are at least two |
| Macro.PreviousIsPenultimate | engine/macro.py:283-285 | the previous rate is that of the second-newest collapsed entry when there are at least two |
| Macro.TrackRates | engine/macro.py:272-280 | the first loop keeps the readable readings and records the date of the newest rate change |
| Macro.PreviousRate | engine/macro.py:283-285 | the backward scan finds the most recent rate different from the current one |
| Macro.CompressChanges | engine/macro.py:286-289 | the third loop computes the collapsed history |
| Macro.LastN | engine/macro.py:290 | `xs[-n:]` is the last n elements, or all of them when there are fewer |
| Macro.FetchCbrtTracker | engine/macro.py:265-292 | the current rate is the newest reading, the previous rate the last different one, the change date that of the newest change, the history the last 24 changes and the next meeting the calendar's |
| Macro.HistoryRuns | engine/macro.py:286-290 | the history holds at most 24 entries, no two neighbours alike, ends at the current rate and starts at the first reading when it was not cut |
| Macro.HistoryEnds | engine/macro.py:279-290 | with two history entries the newest dates the last change and the one before holds the previous rate |
| Macro.FirstOnOrAfter | engine/macro.py:297-298 | the scan stops at the first date not before today, every earlier date being before it |
| Macro.NextCbrtMeeting | engine/macro.py:294-299 | "TBD" exactly when every listed meeting is before today; otherwise a listed meeting not before today |
| Macro.Meetings | engine/macro.py:307-311 | one high-importance event per listed date, in order |
| Macro.Pad2 | engine/macro.py:314 | a month is padded to two digits |
| Macro.Releases | engine/macro.py:313-315 | two releases per month from February on |
| Macro.DateLessTotal | engine/macro.py:317 | the date comparison the sort uses is a strict total order |
| Macro.AppendMeetings | engine/macro.py:307-311 | a meeting loop appends one event per date |
| Macro.SortByDate | engine/macro.py:317 | sorting by date orders the events, keeps them all and keeps same-date events in their order |
| Macro.AppendReleases | engine/macro.py:313-315 | the CPI loop appends the two releases of every month from February to December |
| Macro.EconomicCalendar | engine/macro.py:301-319 | the calendar holds the 36 appended events, sorted by date, same-date events in append order |
| Macro.RawCalendarSize | engine/macro.py:305-315 | seven CBRT meetings, seven FOMC meetings and 22 releases make 36 events |
| Macro.FetchErpAsWritten | engine/macro.py:339-357 | as written, the fetch raises exactly for a P/E of 0 with a known yield; otherwise the earnings yield is 100/PE and the premium that yield less the 10-year |
| Macro.ZeroPeRaises | engine/macro.py:348-350 | a P/E of 0 with a known yield raises ZeroDivisionError |
| Macro.NegativePeGivesNegativeYield | engine/macro.py:348-350 | a negative P/E gives a negative earnings yield and premium |
| Macro.FetchErp | engine/macro.py:339-357 | corrected, the yield and premium are present exactly for a positive P/E and a known yield, related as in the source |
| Macro.FetchErpAgrees | engine/macro.py:348-350 | wherever the source's division succeeds on a positive P/E or a missing input, the corrected fetch agrees with it |
| Macro.FetchErpMatchesValuation | engine/valuation.py:74-88 | the corrected premium is present and equal exactly where the ERP_YIELD valuation model reports one for the same P/E and yield |
| Market.ChangePctInverse | engine/market.py:35 | applying the change to a non-zero previous close gives back the price; a zero previous close gives 0 |
| Market.ChangePctSign | engine/market.py:35 | with a positive previous close, the change is positive, zero or negative exactly as the price is above, at or below it |
| Market.ChunksCover | engine/market.py:116-118 | the chunks are consecutive and cover the symbols exactly once, in order; each holds 1 to chunk_size symbols, all but the last exactly chunk_size |
| Market.ChunkElements | engine/market.py:117 | every symbol of a chunk is one of the symbols |
| Market.MergeAllSnoc | engine/market.py:122 | merging one more chunk updates the merged frames with that chunk's part |
| Market.MergedFromChunks | engine/market.py:116-127 | every merged symbol was returned by the download of some chunk that did not raise |
| Market.MergedWithinSymbols | engine/market.py:129-146 | when each download answers only for its own chunk's symbols, every merged symbol was requested |
| Market.ChunksFrom | engine/market.py:116-117 | the chunk walk from i takes `symbols[i:i+size]` and continues at i + size |
| Market.DownloadBatched | engine/market.py:114-127 | a chunk size of 0 raises; otherwise the merge over the chunks, skipping chunks whose download raised |
| Market.NaEntry | engine/market.py:104-112 | the placeholder has price, previous close and change "N/A", source "N/A", and the registered name or the symbol |
| Market.GramGoldInverse | engine/market.py:57-60 | gram gold is computed exactly when both prices are numbers, and 31.1035 grams of it cost one ounce in lira |
| Market.WithGramGold | engine/market.py:55-72 | every other entry is kept; GRAM_ALTIN is added with source CALC, the name as the file spells it ("Gram AltÄ±n") and the gram price exactly when gram gold can be computed, and nothing changes otherwise |
| Market.FetchMarketData | engine/market.py:9-78 | a fresh cached snapshot is returned as is; otherwise gram gold is added and the snapshot is cached exactly when some entry has a price |
| Market.AllUnavailableNotCached | engine/market.py:74-77 | a snapshot made only of placeholders is never cached |
| Market.GramGoldIsCached | engine/market.py:55-77 | once gram gold can be computed the snapshot holds a price and is cached |
| Market.GainersRanked | engine/market.py:213-217 | at most ten risers, all from the stocks, biggest rise first; a riser left out rose no more than any listed one and only when ten are listed |
| Market.LosersRanked | engine/market.py:213-218 | at most ten fallers, all from the stocks, biggest fall first; a faller left out fell no more than any listed one and only when ten are listed |
| Market.MoversOf | engine/market.py:213-220 | at most ten gainers, all rising, at most ten losers, all falling, and the ten most traded or all stocks when fewer |
| Market.MostTradedRanked | engine/market.py:214-219 | the first ten stocks by descending volume (all when fewer); a stock left out traded no more than any listed one |
| Market.DropThreshold | engine/market.py:304-306 | a stock is distressed exactly when its high is positive and it closes below 80% of it, and its drawdown is then below -20 |
| Market.Drops | engine/market.py:292-315 | the screen lists at most one entry per row |
| Market.DropsFromRows | engine/market.py:296-313 | every distressed entry comes from a row that qualifies and lies below the cut |
| Market.DropsComplete | engine/market.py:296-313 | every qualifying row is listed |
| Market.ScreenDistressed | engine/market.py:292-315 | the screening loop computes the distressed list in ticker order |
| Market.FetchDistressed | engine/market.py:280-321 | the screen sorted by drawdown, worst first, cut at fifteen |
| Market.DistressedRanked | engine/market.py:318-319 | at most fifteen distressed stocks, worst first; a qualifying stock left out fell no more than any listed one and only when fifteen are listed |
| Scraper.TokenEnd | engine/scraper.py:66 | a match at a digit is at least one character and stays inside the text |
| Scraper.TokenEndShape | engine/scraper.py:66 | the match at a digit has the shape of the number pattern |
| Scraper.TokensShape | engine/scraper.py:66 | every token `re.findall` yields is digits with at most one separator between digits |
| Scraper.OneSeparator | engine/scraper.py:77-83 | no token holds both a comma and a point, so the two-separator branch of the cleaning is never taken from fetch_price |
| Scraper.RFindAt | engine/scraper.py:78 | `rfind` finds the last occurrence of the character |
| Scraper.ParseDigits | engine/scraper.py:92 | `float()` of a digit run is its value |
| Scraper.NormalizeDecimalComma | engine/scraper.py:84-88 | a comma followed by at most two digits becomes a decimal point |
| Scraper.NormalizeThousandsComma | engine/scraper.py:84-90 | a comma followed by three or more digits is dropped as a thousands separator |
| Scraper.NormalizeEuropean | engine/scraper.py:77-80 | European grouping `a.b,c` becomes `ab.c` |
| Scraper.NormalizeUs | engine/scraper.py:77-83 | US grouping `a,b.c` becomes `ab.c` |
| Scraper.Normalize | engine/scraper.py:76-90 | the cleaned token never holds a comma and is no longer than the raw one; a token without a comma is left as it is |
| Scraper.SeparatedTokenValue | engine/scraper.py:76-92 | a point, or a comma followed by at most two digits, reads as a decimal mark; a comma followed by more digits separates thousands |
| Scraper.TokenParses | engine/scraper.py:92 | every token the pattern yields cleans to a number, so `float()` never raises on them |
| Scraper.Window | engine/scraper.py:58 | the window holds at most 200 characters |
| Scraper.FirstAcceptedIsFirst | engine/scraper.py:68-105 | the answer is the value of the first token that parses and passes the year and small-integer filters; no answer means no token passes |
| Scraper.QuoteDecimal | test_scraper.py:21 | "34" and "50" make 34.5 |
| Scraper.QuoteTokenValue | test_scraper.py:21 | the token "34.50" is worth 34.5 |
| Scraper.QuoteExample | test_scraper.py:14-36 | of the tokens "34.50" and "34.20" after the keyword, 34.5 is returned |
| Scraper.MatchStarts | engine/scraper.py:55 | every match start lies inside the text |
| Scraper.MatchStartsOccur | engine/scraper.py:55 | every match start is a case-insensitive occurrence of the keyword |
| Scraper.NearKeywordsAccepted | engine/scraper.py:53-103 | whatever the keyword scan returns passed the filters |
| Scraper.WindowsAccepted | engine/scraper.py:56-103 | whatever the window scan returns passed the filters |
| Scraper.ScanWindow | engine/scraper.py:66-105 | the token loop returns the first accepted token of the window |
| Scraper.ScanKeyword | engine/scraper.py:55-105 | the match loop returns the first accepted token over that keyword's windows, in match order |
| Scraper.ScanPage | engine/scraper.py:53-105 | the keyword loop returns the first accepted token in keyword, match and token order |
| Scraper.SplitOn | engine/scraper.py:136 | `split` always gives at least one piece |
| Scraper.SplitOnJoin | engine/scraper.py:136 | joining the pieces with the separator restores the URL, and no piece holds the separator |
| Scraper.IndexOf | engine/scraper.py:138 | `index` finds the first equal piece |
| Scraper.CountrySegment | engine/scraper.py:135-140 | a found country is the piece after the first "cds-historical-data" piece of a worldgovernmentbonds URL, and holds no '/' |
| Scraper.FirstInRange | engine/scraper.py:169-178 | the fallback's answer lies in [50, 5000] |
| Scraper.FallbackInRange | engine/scraper.py:121-183 | the fallback answers only with a non-empty country whose tradingeconomics page loaded, and only with a value in [50, 5000] |
| Scraper.ScanFallback | engine/scraper.py:169-178 | the fallback's token loop returns the first token in range |
| Scraper.SmartFallbackCds | engine/scraper.py:121-183 | the fallback method computes the fallback specification |
| Scraper.FetchPrice | engine/scraper.py:20-119 | fetch_price computes the price specification |
| Scraper.Price | engine/scraper.py:20-119 | a price is never 0, and without the smart CDS handler a price is only found when the page itself was fetched |
| Scraper.PriceSound | engine/scraper.py:20-119 | a price is either a filtered token near a keyword or a CDS value in [50, 5000] |
| Scraper.SmartAnswerWins | engine/scraper.py:25-29 | on a worldgovernmentbonds CDS URL the smart handler's answer is returned whenever it has one |
| Scraper.PageDownGivesNothing | engine/scraper.py:38-40 | without the smart handler, an unreachable page gives None |
| Tim.FirstWhere | engine/extractors/tim.py:42-47 | the index found is the first passing one, or the end when none passes |
| Tim.LastWhere | engine/extractors/tim.py:135-137 | the index found is the last passing one, and none means no element passes |
| Tim.FindExcelLink | engine/extractors/tim.py:42-47 | the anchor loop stops at the first sectoral link and computes the chosen link |
| Tim.FirstWhereUnique | engine/extractors/tim.py:42-47 | an index with no earlier passing element, at which the element passes or the sequence ends, is the first one |
| Tim.ExcelLinkChosen | engine/extractors/tim.py:39-51 | the link is the first anchor naming a sectoral workbook of this year or the last, made absolute against the host; none means no anchor qualifies |
| Tim.UpperCells | engine/extractors/tim.py:67 | one upper-cased string per cell |
| Tim.HeaderRow | engine/extractors/tim.py:65-70 | the header row is the first row mentioning "SEKTÖR" without "TOPLAM", or row 0 |
| Tim.FindHeaderRow | engine/extractors/tim.py:65-70 | the row loop stops at the first header row and computes the header row |
| Tim.HeaderRowChosen | engine/extractors/tim.py:65-70 | the header row is the first qualifying row, and row 0 exactly when none qualifies |
| Tim.Labels | engine/extractors/tim.py:119 | one label per column |
| Tim.TargetColumn | engine/extractors/tim.py:126-144 | the column read is monthly for this year or the last |
| Tim.TargetColumnFound | engine/extractors/tim.py:126-144 | a column is found exactly when some column is monthly for this year or the last, and the one found is |
| Tim.CurrentYearFirst | engine/extractors/tim.py:126-130 | when this year has a monthly column, the first one is taken whatever last year offers |
| Tim.FindTargetColumn | engine/extractors/tim.py:117-144 | the two column loops compute the target column |
| Tim.PreviousYearColumn | engine/extractors/tim.py:133-140 | the fallback loop takes the first monthly column of last year naming a month, else the last monthly one |
| Tim.LastWhereSnoc | engine/extractors/tim.py:135-137 | one more element becomes the last passing one exactly when it passes |
| Tim.CleanTurkish | engine/extractors/tim.py:150-151 | a Turkish-formatted figure `a.b,c` reads as the decimal `ab.c` |
| Tim.SectorsFromRows | engine/extractors/tim.py:167-177 | every collected sector comes from one of the rows |
| Tim.SectorsComplete | engine/extractors/tim.py:167-177 | every row with a named, positive, non-total value is collected |
| Tim.CollectSectors | engine/extractors/tim.py:164-177 | the row loop collects the sectors in row order |
| Tim.TopSectorsRanked | engine/extractors/tim.py:167-181 | at most three sectors, largest first, each a named non-total row with a positive value; a sector left out is worth no more than any listed one and only when three are listed |
| Tim.TotalRow | engine/extractors/tim.py:87-92 | the total row is the first data row whose first cell mentions "toplam" in any case, or none |
| Tim.ReadSheet | engine/extractors/tim.py:62-194 | the parsing steps compute the sheet's result |
| Tim.ReadTotal | engine/extractors/tim.py:146-194 | the total and the sectors in the chosen column, or None when the total cell does not parse |
| Tim.FetchExportData | engine/extractors/tim.py:27-198 | fetch_export_data computes the export specification from the page, the download and the sheet |
| Tim.RowsSound | engine/extractors/tim.py:76-190 | a result below a header names the source link, a monthly column of this year or the last, and at most three sectors |
| Tim.SheetSound | engine/extractors/tim.py:62-190 | a sheet's result names the source link, a monthly column of this year or the last, and at most three sectors |
| Tim.ExportDataSound | engine/extractors/tim.py:27-190 | a result comes from an absolute link, names a monthly column of this year or the last, and lists at most three sectors |
| Tim.ExportData | engine/extractors/tim.py:27-198 | a result needs the page, a chosen workbook link and its download, and carries that link as its source |
| Tim.ReadRows | engine/extractors/tim.py:76-194 | the steps below the header row compute the rows' specification: the total row, the target column, then the readings |
| News.Filter | engine/news.py:60-63 | a source's items are never more than the archive's |
| News.FilterFacts | engine/news.py:60-63 | a source's queue holds only archive items of that source, and is non-empty exactly when the archive has one |
| News.SourcesFacts | engine/news.py:62-67 | the cycle lists every source of the archive, each once |
| News.GroupBySource | engine/news.py:59-63 | the grouping loop builds one queue per source in archive order, keys in order of first appearance |
| News.BalancedRetrieval | engine/news.py:58-76 | the balanced list is the round robin over the archive's grouping, cut at 60 |
| News.Cycle | engine/news.py:66-76 | the while loop ends with the cut of the rounds taken, and stops short of 60 only when every source is exhausted |
| News.Turn | engine/news.py:70-76 | one pass of the for loop over the live sources advances the round robin by one round |
| News.Pass | engine/news.py:70-76 | a pass appends the round's items up to the cut and, below it, leaves exactly the sources that still have items, each popped once more |
| News.Visit | engine/news.py:71-74 | visiting a source pops its next item onto the list, or drops the exhausted source from the cycle |
| News.PassEnd | engine/news.py:70-76 | where the pass stops, the list and the cycle are those of the next round |
| News.CycleKept | engine/news.py:71-72 | a source with another item stays in the cycle |
| News.CycleDropped | engine/news.py:73-74 | `list.remove` takes the exhausted source's only occurrence out of the cycle |
| News.RoundStep | engine/news.py:70-72 | visiting one more source extends the round by that source's next item, if any |
| News.KeepStep | engine/news.py:70-74 | visiting one more source keeps it in the cycle exactly when its queue has another item |
| News.QueueIsFilter | engine/news.py:60-63 | a source's queue is the archive filtered to that source |
| News.QueuesBounded | engine/news.py:60-63 | no queue is longer than the archive, and every queue holds only its own source's items |
| News.KeepFacts | engine/news.py:73-74 | the live sources are those of the cycle whose queues are long enough, never listed twice, and all of them before the first round |
| News.PopStep | engine/news.py:72 | popping a queue after r pops yields its r-th item |
| News.RoundKeep | engine/news.py:70-74 | exhausted sources add nothing, so a pass over the live sources is the whole round |
| News.LiveBound | engine/news.py:69 | a source is still live only while the round count is within its queue's length, so the loop ends |
| News.NextRound | engine/news.py:69-76 | below the cut, adding the next round gives the cut of one more round |
| News.RoundsStable | engine/news.py:69 | once every queue is exhausted, further rounds add nothing |
| News.Finish | engine/news.py:69-76 | the state the loop ends in is the cut of all the rounds |
| News.RoundsLength | engine/news.py:69-76 | n rounds hold, per source, as many items as the source has up to n |
| News.SumMinAll | engine/news.py:69-76 | with every queue at most as long as the archive, the capped sum is the plain sum |
| News.SumLenSnoc | engine/news.py:60-63 | one more archived item adds one to the sum exactly when its source is listed |
| News.SourcesCover | engine/news.py:59-63 | every archive item belongs to exactly one listed source |
| News.InterleaveLength | engine/news.py:69-76 | the balanced list holds min(60, archive size) items: nothing is lost before the cut |
| News.Interleave | engine/news.py:58-76 | the balanced list holds at most 60 items and is empty for an empty archive |
| News.FilterAppend | engine/news.py:60-63 | filtering distributes over concatenation |
| News.FilterRound | engine/news.py:70-72 | a round holds at most the next item of each source, and only of a listed one |
| News.FilterRoundCovered | engine/news.py:70-72 | when every source is listed, round r gives each source's r-th item, if any |
| News.FilterRounds | engine/news.py:69-76 | after n rounds each source has given exactly its first n items, in order |
| News.RoundsGive | engine/news.py:69-76 | if every round gives the next item of a source, n rounds give its first n |
| News.PerSourceOrder | engine/news.py:72 | within each source the balanced list keeps archive order and takes a prefix of that source's items |
| News.FilterTake | engine/news.py:76 | cutting the list keeps a prefix of each source's items |
| News.FilterCount | engine/news.py:60-63 | an item occurs as often among its source's items as in the whole list |
| News.TakenAtMostOnce | engine/news.py:72 | every balanced item comes from the archive, and none is taken more often than it is archived |
| News.FirstRoundAll | engine/news.py:70-72 | with every listed queue non-empty, the first round takes each source's first item in cycle order |
| News.FirstRoundCut | engine/news.py:70-76 | with every listed queue non-empty, the i-th balanced item is the i-th source's first item |
| News.FirstRound | engine/news.py:67-72 | the first round takes each source's first archived item, sources in order of first appearance |

## Left out

- Text.LowerChar: folds ASCII and Ç Ğ Ö Ş Ü only. Python's `lower()` turns İ into "i̇" (two characters) and folds every other Unicode capital; those cases are not modelled.
- Text.UpperChar: maps ASCII, ç ğ ö ş ü and ı only; other Unicode letters, and multi-character results such as "ß" → "SS", are not modelled.
- Text.IsSpace: ASCII whitespace only. Python's `strip()`/`split()` and JavaScript's `\s` also treat Unicode spaces as whitespace.
- Numbers.ParseFloat: reads an optional sign, digits and one decimal point. Exponents, "inf", "nan" and `_` digit separators are not read, so the model gives None where Python gives a number. One visible effect: a TİM total cell holding the text "nan" makes Tim.FromColumn answer None, where the source returns a NaN total (engine/extractors/tim.py:150-154).
- Numbers.JsParseFloat: the same decimal subset of JavaScript's `parseFloat`; exponents and "Infinity" are not read.
- Knowledge.Entry: keeps the full name, the formula and the names of the related metrics. The prose texts ("definition", "institutional_meaning" and each relationship's sentence, engine/knowledge.py:8-14 and 159-160) are dropped because nothing in the engine computes with them.
- Cache: the threading lock around the store (engine/cache.py:5,9,17) is not modelled; the cache is single-threaded and the time is a parameter.
- Alerts.Classify: reports z exactly; the source rounds it to two places (engine/alerts.py:54,61).
- Scorecard.ComputeScorecard: reports the exact composite; the source rounds it to one place (engine/scorecard.py:167), and the signal is chosen on the unrounded value in both. Each metric's "value" is kept as the reading itself, where the source formats it as a string (`f"{spread:.2f}%"` and the like, engine/scorecard.py:56-133).
- Scorecard.CardOf and Scorecard.ScorecardSpec: the same as Scorecard.ComputeScorecard, exact composite and unformatted values.
- Text.IsDigit: ASCII digits only. Python's `\d` in the price regex (engine/scraper.py:66) and `float()` also accept other Unicode decimal digits, such as Arabic-Indic ones; a page using them yields numbers in the source and none in the model.
- Valuation.SovereignSpread and Valuation.ErpYield: report exact values; the source rounds fair_value, gap and value to two places and formats the message with f-strings (engine/valuation.py:64-65,84).
- Seasonality.Stats: reports the exact mean and win rate; the source rounds them to 2 and 0 places (engine/seasonality.py:40-41).
- Tim.FromColumn: reports the exact total in billions and the sectors as (name, value); the source rounds the total and formats each sector as a title-cased "Name ($x.yB)" string (engine/extractors/tim.py:182,185).
- Macro.EvdsYoyFromIndex, Macro.CalcGdpYoy, Macro.DeriveSpreads and Macro.FetchErp: exact values where the source rounds to two places.
- Research.Cents: rounds the exact real x·100 to the nearest cent. Python formats the nearest binary double, with round-half-even, so a value exactly halfway may land on the other cent.
- Market: the rounding of price, previous close and change to two places, and the formatted price, change and volume strings of the movers, are not modelled.
- Floating point generally: numbers are reals, so −0.0, NaN, infinities and binary rounding do not arise.
- Network and parsing I/O: requests, yfinance, feedparser, BeautifulSoup and pandas calls are parameters. A page is given as its visible text or its anchors, a workbook as a grid of cells, and a download as a function from symbols to frames. The header mangling of `pd.read_excel(header=...)` and `str()` of a float in a cell (the `show` parameter) are taken as given.
- Market: `_fetch_single_ticker_fast`, `_yf_get_ticker_dfs`, `fetch_history`, `fetch_gold_correlation` (a pandas correlation), `get_market_status` (wall clock and time zones) and `archive_market_snapshot` are not modelled. The per-symbol quotes arrive as data, and the pauses between chunks are left out.
- Market: the movers cache gate (engine/market.py:171-172) is not modelled; only the ranking of `_calc_movers_for_index` is.
- Macro: `fetch_turkey_macro`, `fetch_macro_data`, `_fetch_cds`, `_fetch_bist_pe`, `_fetch_turkey_rating` and the FRED requests are fetches. Their results are inputs, and the caches of `fetch_cbrt_tracker` and `fetch_economic_calendar` are left out.
- News: the RSS fetching and summary trimming of `fetch_news` (engine/news.py:24-52), `archive_news`, `get_recent_news` and the news cache are I/O. The archive list is the input of the interleave.
- Scraper: `auto_discover` has an empty body (`pass`) and is not modelled.
- Research: the LLM calls and prompt assembly, `search_news`, `get_top_movers` and `get_tickets` are foreign services or database reads. The news search is a parameter of Research.ArchiveHits.
- Seasonality: `fetch_long_history` is imported from engine/market.py (engine/seasonality.py:10), which does not define it; the model takes the ten-year history as a parameter, as if the fetch existed. `get_intraday_context` is wall-clock logic. The current month is a parameter.
- EntityAnalysis.SeasonalityStep: models block 4 as intended, with a working ten-year fetch. As written the import at engine/resolver.py:49 raises ImportError, so no analysis carries "seasonality"; EntityAnalysis.SeasonalityStepAsWritten models that, and the row under "## Findings" records it.
- EntityAnalysis.DivergenceStep: models block 5 as intended, with resolve_entity bound. As written, resolve_entity is a local name that the failed block 4 never binds, so the lira and BIST 100 branches raise UnboundLocalError (engine/resolver.py:72,80) and no analysis carries "divergence"; EntityAnalysis.DivergenceStepAsWritten models that.
- Resolver.GetCurrentLevel: the banking, sentiment and trade branches read snapshots given as parameters, as if engine/macro.py defined `fetch_banking_monitor`, `fetch_sentiment_dashboard` and `fetch_trade_data`. It defines none of them, so as written the imports at engine/resolver.py:187,194,211 raise ImportError for every entity of those three sources, and an impact chain linking one of them raises too.
- CommandBar: DOM rendering, the debounce timer of the search box, and the asynchronous search request are not modelled; a search is a request and its completion is CommandBar.AutoComplete.SearchDone.
- CommandBar.AutoComplete.KeyDown: the Enter branch that runs the typed command when the highlighted index is out of range cannot happen while the list is shown, because a shown list always has a highlighted row; the model keeps that branch but its contract does not mention it.
- The database (engine/db.py), the Flask routes (app.py), engine/config.py and engine/extractors/bddk.py and engine/sentiment/trends.py are not part of this model.

## Findings

| source | as written | input that shows it | evidently intended | confidence | as-written member | corrected member |
|---|---|---|---|---|---|---|
| engine/scorecard.py:114 | the fallback CDS is read from the macro panel's `cds["value"]`, but the panel stores the figure under `"val"` (engine/macro.py:33-54) | a Turkey-macro list without "cds_5y" and a macro snapshot whose CDS record is `{"val": 300.0, "source": ..., "label": "CDS 5Y"}`: the card has no "cds" score | the panel's CDS figure is scored on the CDS ladder when the Turkey-macro list has none | not executed | Scorecard.PanelCdsNeverScored | Scorecard.PanelCdsScored |
| engine/macro.py:348-350 | `earnings_yield = 100 / pe` has no guard on the P/E | a scraped P/E of 0 with a known 10-year yield raises ZeroDivisionError | a non-positive P/E gives "N/A", as the ERP_YIELD valuation model does (engine/valuation.py:78) | not executed | Macro.ZeroPeRaises | Macro.FetchErpMatchesValuation |
| engine/resolver.py:46-80 | block 4 imports engine/seasonality.py, whose `from .market import fetch_long_history` names a function engine/market.py does not define; the ImportError also skips the local `from .registry import resolve_entity`, which block 5 then reads unbound | any seasonal key, e.g. "usdtry" with a CDS level whose change is 3.0 and a lira move of 0.0: the result has neither "seasonality" nor "divergence" | seasonal keys get their monthly profile and the lira and BIST 100 get their divergence check | not executed | EntityAnalysis.AsWrittenDropsSeasonalityAndDivergence | EntityAnalysis.GetEntityAnalysis |
