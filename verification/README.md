# Multi-agent stock analysis: a Dafny model of the chat route

This project models the deterministic core of the chat route of a stock-analysis assistant
(`src/app/api/chat/route.js`). Given a request, the route does the following:

- It resolves the stock symbols. It first tries the language model's comma-separated
  answer, then a fixed company-name table.
- It runs four agents on each symbol: market data, news, risk and technical analysis.
- It compares the candidates and synthesises a recommendation.
- It picks the primary analysis, computes a price target and assembles the structured
  report, which lists the other candidates as alternatives.

The rules listed in the table below are modelled; what the route does beyond them is listed
under "Left out". The external calls are not modelled: what the market-data provider, the
news feed and the language model return appears as parameters.

Modules, in dependency order:

- `Values`: optional values and the JavaScript truthiness tests (`x || null`, `s || fallback`).
- `Series`: sums, trailing windows and the numeric-close filter.
- `Indicators`: SMA, RSI, EMA/MACD, the trend rules, the signal tags and `performTechnicalAnalysis`.
- `Risk`: daily returns, variance, annualised volatility, downside semi-deviation,
  probability bands and `assessRisk`.
- `Fundamentals`: market-capitalisation rendering, the debt ratio, the derived price change
  and the stock record.
- `Candidates`: one analysed candidate and the degraded record used for a failed symbol.
- `Comparison`: `compareStocks`, covering the single-stock shortcut, the fallback scorer and
  the failure default.
- `PriceTarget`: `generatePriceTarget`.
- `Symbols`: `extractSymbols` post-processing, the company-name fallback and symbol resolution.
- `Pipeline`: the fan-out over symbols, `synthesizeRecommendation`, the primary analysis,
  the alternatives and the whole run.

Numbers are Dafny `real`s. `Math.sqrt` is a parameter constrained by the `Risk.IsSquareRoot`
predicate: it returns a non-negative root that squares back to its argument.

## Model

| member | source | states |
|---|---|---|
| Values.OrNull | src/app/api/chat/route.js:403-408 | `x \|\| null` is present exactly when the number is truthy (present and non-zero), and then keeps its value |
| Values.StringOr | src/app/api/chat/route.js:934 | `s \|\| fallback` on strings: a non-empty string is kept, the empty one is replaced |
| Values.TextOr | src/app/api/chat/route.js:976 | an absent or empty company name falls back to the given text, otherwise is kept |
| Series.LastN | src/app/api/chat/route.js:453 | `slice(-n)` has n elements, the i-th being element \|s\|-n+i of the input |
| Series.SumBounds | src/app/api/chat/route.js:453 | a sum of values in [lo, hi] lies between n*lo and n*hi |
| Series.SumZeroIffAllZero | src/app/api/chat/route.js:366 | a sum of non-negative terms is zero exactly when every term is zero |
| Series.SumConstant | src/app/api/chat/route.js:365 | the sum of n copies of c is n*c |
| Series.PresentCloses | src/app/api/chat/route.js:351-354 | the numeric closes are no more than the quotes, each comes from a quote, and none is lost when every quote has a close |
| Series.PresentClosesOfOne | src/app/api/chat/route.js:353 | a quote without a close contributes nothing, and one with a close contributes that close |
| Series.PresentClosesAppend | src/app/api/chat/route.js:353 | the closes of a concatenated chart are the closes of its parts in chart order, so every numeric close is kept, in order, repeats included |
| Indicators.Sma | src/app/api/chat/route.js:451-455 | undefined exactly when there are fewer than n closes; otherwise n times the average is the sum of the last n closes |
| Indicators.SmaWithinWindow | src/app/api/chat/route.js:451-455 | when the last n closes lie in [lo, hi], so does the SMA |
| Indicators.GainsZeroIff | src/app/api/chat/route.js:461-465 | the summed gains are zero exactly when no day in the window rose |
| Indicators.LossesZeroIff | src/app/api/chat/route.js:461-465 | the summed losses are zero exactly when no day in the window fell |
| Indicators.Rsi | src/app/api/chat/route.js:457-458 | the RSI is undefined exactly when there are fewer than n+1 closes |
| Indicators.RsiRange | src/app/api/chat/route.js:457-471 | with enough closes, the RSI is defined and in [0, 100]; it is 100 exactly when no day in the window fell, and 0 exactly when none rose but some fell |
| Indicators.ComputeRsi | src/app/api/chat/route.js:457-471 | the loop over the window computes the RSI definition |
| Indicators.Smoothing | src/app/api/chat/route.js:477 | the EMA factor 2/(period+1) lies in (0, 1] |
| Indicators.EmaWithin | src/app/api/chat/route.js:476-483 | the EMA of values in [lo, hi] stays in [lo, hi] |
| Indicators.ComputeEma | src/app/api/chat/route.js:476-483 | the loop computes the left-to-right EMA definition |
| Indicators.ComputeMacd | src/app/api/chat/route.js:473-498 | undefined exactly below 26 closes; otherwise the line is fast EMA minus slow EMA, and the histogram is nine tenths of the line |
| Indicators.SmaStep | src/app/api/chat/route.js:511-519 | bullish exactly when SMA20 and SMA50 are truthy and latest > SMA20 > SMA50, bearish for the mirror condition; each trend pushes its two tags and neutral pushes none |
| Indicators.RsiStep | src/app/api/chat/route.js:521-529 | a truthy RSI above 70 tags overbought, turns bullish into neutral and leaves any other trend; a truthy RSI below 30 tags oversold, turns bearish into neutral and leaves any other trend; otherwise nothing changes |
| Indicators.MacdSignals | src/app/api/chat/route.js:531-535 | at most one tag: bullish crossover exactly for a positive histogram with line above signal, bearish crossover exactly for a negative histogram with line below signal |
| Indicators.MacdCrossoverFollowsLine | src/app/api/chat/route.js:487-491 | because the signal line is a tenth of the MACD line, the crossover tag follows the sign of the line |
| Indicators.FlatSeriesHasNoCrossover | src/app/api/chat/route.js:473-535 | a flat series has a zero MACD line and no crossover tag |
| Indicators.CandleSignals | src/app/api/chat/route.js:538-549 | "three white soldiers" exactly for three strictly rising last closes, "three black crows" exactly for three strictly falling ones |
| Indicators.Classify | src/app/api/chat/route.js:508-535 | the trend is bullish exactly when the bullish moving-average rule holds and the RSI is not a truthy value above 70, and bearish exactly for the mirror with a truthy RSI below 30; otherwise neutral |
| Indicators.ClassifySignalsGrouped | src/app/api/chat/route.js:508-549 | tags come in push order: moving averages, RSI, MACD, candlestick |
| Indicators.ClassifySmaTags | src/app/api/chat/route.js:511-519 | the two bullish moving-average tags are in the final list exactly when the moving-average rule is bullish, the two bearish ones exactly when it is bearish |
| Indicators.ClassifyMacdTags | src/app/api/chat/route.js:531-535 | the bullish crossover tag is in the final list exactly for a positive histogram with line above signal, the bearish one exactly for the mirror |
| Indicators.ClassifyRsiTags | src/app/api/chat/route.js:521-528 | the RSI tags in the final list appear exactly for a truthy RSI above 70 or below 30 |
| Indicators.ClassifyCandleTags | src/app/api/chat/route.js:538-549 | the candlestick tags in the final list appear exactly for three strictly rising or falling closes |
| Indicators.Analyze | src/app/api/chat/route.js:500-562 | the result carries the last close, RSI(14), MACD and SMA 20/50/200 of the closes, with support `sma50 \|\| null` and resistance `sma20 \|\| null` |
| Indicators.PerformTechnicalAnalysis | src/app/api/chat/route.js:441-448 | the result is empty exactly when the chart fetch failed or has no numeric close; otherwise it is the analysis of the numeric closes |
| Indicators.RisingTwentyOneCloses | src/app/api/chat/route.js:501-549 | 21 closes rising by one give RSI 100 and the overbought tag but a neutral trend, since SMA50 is undefined; they also give three white soldiers and no MACD |
| Risk.DailyReturns | src/app/api/chat/route.js:358-364 | one return per consecutive pair, each satisfying r[i]*close[i] = close[i+1]-close[i] |
| Risk.ReturnSign | src/app/api/chat/route.js:362 | with a positive previous close, a return is negative exactly when the next close is lower |
| Risk.NegativeReturnIffFall | src/app/api/chat/route.js:362-394 | with positive prices a return is negative exactly when the price fell that day |
| Risk.SquaredDeviations | src/app/api/chat/route.js:366 | each squared deviation is non-negative, and zero exactly at the mean |
| Risk.Variance | src/app/api/chat/route.js:365-366 | the population variance is non-negative |
| Risk.VarianceZeroIffConstant | src/app/api/chat/route.js:365-366 | the variance is zero exactly when all values are equal |
| Risk.Negatives | src/app/api/chat/route.js:393 | the filtered returns are all negative and come from the input; every negative return is kept; the filter is empty exactly when no return is negative |
| Risk.NegativesOfOne | src/app/api/chat/route.js:393 | a single return is kept exactly when it is negative |
| Risk.NegativesAppend | src/app/api/chat/route.js:393 | the filter of a concatenation is the concatenation of the filters, so all negative returns are kept in order, repeats included |
| Risk.AnnualizedSign | src/app/api/chat/route.js:367 | the annualised figure is non-negative, and zero exactly for zero variance |
| Risk.AnnualizedSquare | src/app/api/chat/route.js:367 | the annualised figure squared is the variance times 252 times 100² |
| Risk.ProbabilityBands | src/app/api/chat/route.js:407-408 | both bands are present exactly when the volatility is truthy |
| Risk.BandsComplement | src/app/api/chat/route.js:407-408 | for a positive volatility both bands lie in [0, 100] and add up to 100 |
| Risk.AssessRisk | src/app/api/chat/route.js:402-419 | a failed fetch or text call gives the all-null "unavailable" profile; the beta is `beta \|\| null`; reported figures are positive; the bands are present exactly with a volatility, and they are complementary |
| Risk.VolatilityNonNegative | src/app/api/chat/route.js:357-368 | a raw volatility exists exactly from two closes on and is non-negative |
| Risk.DownsideNonNegative | src/app/api/chat/route.js:387-399 | a raw downside risk exists exactly when some daily return is negative, and is non-negative |
| Risk.VolatilityReportedIff | src/app/api/chat/route.js:357-403 | volatility is reported exactly when there are two or more numeric closes, none of the dividing closes is zero, and the daily returns are not all equal |
| Risk.DownsideReportedIff | src/app/api/chat/route.js:388-404 | downside risk is reported exactly when there are two or more numeric closes, none of the dividing closes is zero, some daily return is negative and the negative returns are not all equal |
| Risk.ReportedFiguresAreDeviations | src/app/api/chat/route.js:357-405 | reported volatility and downside risk are the annualised deviations of all returns and of the negative returns |
| Risk.NoDownsideWithoutLosses | src/app/api/chat/route.js:393-405 | without a losing day no downside risk is reported |
| Risk.FlatReturns | src/app/api/chat/route.js:358-364 | a flat, non-zero series has all returns zero |
| Risk.FlatSeriesHasNoBands | src/app/api/chat/route.js:357-409 | a flat series reports neither volatility, downside risk nor probability bands |
| Fundamentals.NormalizeMarketCap | src/app/api/chat/route.js:86-95 | the rendering stands for the input amount; it is unscaled exactly below a million; otherwise the suffix does not exceed the magnitude |
| Fundamentals.MarketCapMantissaRange | src/app/api/chat/route.js:90-94 | the chosen suffix is the largest that fits, so a scaled mantissa lies in [1, 1000) in absolute value, except for trillions, which are unbounded above |
| Fundamentals.MarketCapSymmetric | src/app/api/chat/route.js:86-95 | a value and its negation get the same suffix and opposite mantissas |
| Fundamentals.DebtRatio | src/app/api/chat/route.js:181-209 | defined exactly when the latest statement has both figures and non-zero assets; then ratio times assets equals liabilities |
| Fundamentals.DebtRatioUsesLatest | src/app/api/chat/route.js:185 | only the first statement matters |
| Fundamentals.DebtRatioBounded | src/app/api/chat/route.js:205-207 | liabilities within positive assets give a ratio in [0, 1] |
| Fundamentals.DerivePriceChange | src/app/api/chat/route.js:212-219 | the provider's change is kept; otherwise a change is derived exactly when price and percentage exist, and change*100 = price*percentage |
| Fundamentals.DerivedChangeSign | src/app/api/chat/route.js:212-219 | for a positive price the derived change has the sign of the percentage |
| Fundamentals.MinimalStockData | src/app/api/chat/route.js:224-229 | the failure record names the symbol as its company and has no figures |
| Fundamentals.FetchStockData | src/app/api/chat/route.js:119-229 | a failed quote gives the minimal record; otherwise the company name, price, change percentage, P/E and beta of the quote, the derived change, the rendered market cap and the debt ratio of the statements |
| Candidates.Degraded | src/app/api/chat/route.js:917-924 | a failed symbol keeps its name, gets a neutral sentiment and trend, and has no risk figures |
| Comparison.Score | src/app/api/chat/route.js:676-684 | the fallback score is at most 100 |
| Comparison.ScoreMonotone | src/app/api/chat/route.js:679-684 | meeting every criterion another candidate meets scores at least as high |
| Comparison.ZeroScoreIffNoCriteria | src/app/api/chat/route.js:679-684 | the score is zero exactly when no criterion holds |
| Comparison.FullScoreIffAllCriteria | src/app/api/chat/route.js:679-684 | the score is 100 exactly when all six criteria hold |
| Comparison.LeaderAfter | src/app/api/chat/route.js:672-690 | after n candidates the leader has the highest score so far, and every earlier candidate scores strictly less |
| Comparison.FallbackWinner | src/app/api/chat/route.js:672-690 | the winner has the highest score, and it is the first candidate to reach that score |
| Comparison.PickFallbackWinner | src/app/api/chat/route.js:672-690 | the loop with its strict `>` update returns that winner and its score |
| Comparison.WinnerUnique | src/app/api/chat/route.js:686-689 | the two winner properties determine the winner |
| Comparison.AllZeroPicksFirst | src/app/api/chat/route.js:672-673 | when every score is zero the first candidate wins |
| Comparison.TieKeepsEarlier | src/app/api/chat/route.js:686 | a later candidate tied with an earlier one never wins |
| Comparison.CompareStocks | src/app/api/chat/route.js:587-707 | one candidate gives the single-stock result; a failed model call defaults to the first candidate; an unparsable answer picks the fallback winner with its trend and sentiment in the rationale |
| Comparison.BestStockIsACandidate | src/app/api/chat/route.js:587-707 | the best stock is always a candidate's symbol, and a comparison is reported exactly for several candidates |
| Comparison.FallbackPrefersStrongerLater | src/app/api/chat/route.js:679-690 | a later bullish candidate with positive news beats an otherwise equal earlier one |
| PriceTarget.ActionFactor | src/app/api/chat/route.js:944-951 | the factor is 1.2 for Buy, 0.8 for Sell and 1.05 for anything else |
| PriceTarget.TrendFactor | src/app/api/chat/route.js:953-958 | the factor is 1.1 for bullish, 0.9 for bearish and 1 otherwise |
| PriceTarget.ValuationFactor | src/app/api/chat/route.js:960-967 | the factor is 1.15 for a truthy P/E below 16, 0.85 above 30 and 1 otherwise |
| PriceTarget.GeneratePriceTarget | src/app/api/chat/route.js:938-939 | "Not available" exactly for a falsy price |
| PriceTarget.TargetIsProductOfFactors | src/app/api/chat/route.js:938-971 | the target is the price times the three independent factors |
| PriceTarget.TargetBounds | src/app/api/chat/route.js:938-971 | a positive price gives a target between 0.612 and 1.518 times the price |
| PriceTarget.BuyBullishUndervalued | src/app/api/chat/route.js:938-971 | a Buy on a bullish chart at P/E 15 and price 100 targets 151.80 |
| PriceTarget.ActionOrdering | src/app/api/chat/route.js:944-951 | for a positive price the target strictly increases from Sell through Hold to Buy |
| Symbols.ToUpperIdempotent | src/app/api/chat/route.js:64 | upper-casing twice is upper-casing once |
| Symbols.Trim | src/app/api/chat/route.js:63 | the result is the input with its leading and trailing spaces removed, and it is empty exactly for an all-space input |
| Symbols.TrimIdempotent | src/app/api/chat/route.js:63-66 | trimming twice is trimming once |
| Symbols.Split | src/app/api/chat/route.js:65 | at least one piece, none containing the separator |
| Symbols.JoinSplit | src/app/api/chat/route.js:65 | joining the pieces with the separator gives back the string |
| Symbols.SplitJoin | src/app/api/chat/route.js:65 | splitting a join of separator-free pieces gives back the pieces |
| Symbols.KeepAccepted | src/app/api/chat/route.js:67 | every kept piece is a 1-5 letter ticker other than NULL, and every such piece is kept |
| Symbols.KeepAcceptedOfOne | src/app/api/chat/route.js:67 | a single piece is kept exactly when it is accepted |
| Symbols.KeepAcceptedAppend | src/app/api/chat/route.js:67 | the filter of a concatenation is the concatenation of the filters, so repeated pieces are all kept, in order |
| Symbols.KeepAcceptedIsSubsequence | src/app/api/chat/route.js:67 | the kept pieces keep their order |
| Symbols.ExtractSymbols | src/app/api/chat/route.js:62-72 | fails with "No valid stock symbols found" exactly when no piece is accepted; otherwise gives the first eight accepted pieces |
| Symbols.ExtractedSymbolsValid | src/app/api/chat/route.js:62-74 | a successful extraction gives 1 to 8 tickers, none NULL, in reply order |
| Symbols.ExtractAcceptedReply | src/app/api/chat/route.js:62-74 | a reply of 1 to 8 valid tickers joined by commas is extracted exactly |
| Symbols.NameToTicker | src/app/api/chat/route.js:862-875 | every mapped name gives a valid ticker |
| Symbols.Tokens | src/app/api/chat/route.js:876-878 | every token consists of upper-case letters only |
| Symbols.Dedupe | src/app/api/chat/route.js:879 | `new Set`: same members, no repeats |
| Symbols.DedupeKeepsFirstOccurrenceOrder | src/app/api/chat/route.js:879 | the kept values appear in the order of their first occurrence |
| Symbols.DedupeIdempotent | src/app/api/chat/route.js:879 | deduplicating twice is deduplicating once |
| Symbols.MapNames | src/app/api/chat/route.js:879 | every ticker comes from a token naming a company, and every token naming a company gives its ticker |
| Symbols.MapNamesOfOne | src/app/api/chat/route.js:879 | a single token gives its ticker, or nothing when the table has no entry for it |
| Symbols.MapNamesAppend | src/app/api/chat/route.js:879 | mapping a concatenation of tokens gives the concatenated tickers, so tickers follow the mention order, repeats included |
| Symbols.FallbackSymbols | src/app/api/chat/route.js:862-880 | the name fallback yields distinct valid tickers, each named by a word of the text, and exactly the tickers named there |
| Symbols.FallbackMentionOrder | src/app/api/chat/route.js:876-880 | the fallback's tickers are ordered by the first mention of their names |
| Symbols.FallbackNeverGM | src/app/api/chat/route.js:873-879 | the fallback never yields GM, since tokens contain no underscore and GENERAL_MOTORS is never a token |
| Symbols.NameFound | src/app/api/chat/route.js:862-880 | a table name standing as a separate word, in any case, is found by the fallback |
| Symbols.DetectedSymbols | src/app/api/chat/route.js:856-881 | the extraction's symbols when it succeeds, otherwise the name fallback's, all valid tickers |
| Symbols.ResolveSymbols | src/app/api/chat/route.js:852-890 | blank text fails with "No input text"; otherwise resolution fails exactly when nothing was detected; a success is a prefix of the detected tickers: all of them when there are at most five, otherwise the first five |
| Symbols.ResolveUsesReply | src/app/api/chat/route.js:852-890 | a reply of 1 to 5 valid tickers is used as given |
| Pipeline.Analysed | src/app/api/chat/route.js:895-924 | a symbol whose agents fail gets the degraded record; otherwise the agents' results are kept under the symbol |
| Pipeline.RunAgents | src/app/api/chat/route.js:895-913 | the data agent's record feeds the risk agent, so the reported risk beta is the record's beta read as `beta \|\| null`; the technical analysis is that of the symbol's chart |
| Pipeline.FanOut | src/app/api/chat/route.js:893-926 | one record per symbol, in order, each analysed independently |
| Pipeline.ChainedAgentsAgreeOnBeta | src/app/api/chat/route.js:893-926 | when each symbol either fails or runs the chained agents, every record's risk beta is its stock beta read as `beta \|\| null`, degraded records included |
| Pipeline.FanOutKeepsSymbols | src/app/api/chat/route.js:893-926 | the records carry exactly the symbols, in order |
| Pipeline.FanOutAppend | src/app/api/chat/route.js:893-926 | fanning out over a concatenation is the concatenation of the fan-outs |
| Pipeline.FirstMatch | src/app/api/chat/route.js:935 | `find` returns the first record with the symbol, or none when no record has it |
| Pipeline.FindOrFirst | src/app/api/chat/route.js:734-735 | the chosen record is in the list: it has the symbol when one does, and is the first record otherwise |
| Pipeline.FindOrFirstIsFirst | src/app/api/chat/route.js:935 | when no earlier record has a record's symbol, searching for that symbol returns that very record |
| Pipeline.SynthesizeRecommendation | src/app/api/chat/route.js:728-845 | counts all records; is a comparison exactly for several; a failure holds on the first record with "Analysis failed"; otherwise names the comparison's best stock, taking the advisor's action or Hold with the comparison rationale |
| Pipeline.Count | src/app/api/chat/route.js:1035-1036 | the count is zero exactly when no record has the symbol |
| Pipeline.Alternatives | src/app/api/chat/route.js:1035-1044 | alternatives and records with the chosen symbol together number the records; no alternative has that symbol; every other record is listed |
| Pipeline.AlternativesInOrder | src/app/api/chat/route.js:1035-1044 | alternatives keep the order of the records |
| Pipeline.CountOfDistinct | src/app/api/chat/route.js:1035-1036 | with distinct symbols, a record's symbol occurs once |
| Pipeline.AssembleReport | src/app/api/chat/route.js:934-1044 | the report names the recommended stock or the first symbol, lists all symbols, and excludes the stock from the alternatives; the count is `totalStocksAnalyzed \|\| 1`, the context `comparisonContext \|\| "Single stock analysis"` and the action the recommendation's action; the company is the primary record's name or the stock, the trend that record's trend or neutral; the price is `price \|\| null` and the target the price target of the primary record, which is the matching record or else the first |
| Pipeline.AnalyseSymbols | src/app/api/chat/route.js:890-1044 | a run over resolved symbols reports one of them, counts them all, is a comparison exactly for several, lists fewer alternatives than symbols, and carries the action the recommendation step chose for the fanned-out records |
| Pipeline.RunAnalysis | src/app/api/chat/route.js:850-1044 | the run fails exactly when symbol resolution fails, with its message; otherwise it reports on the resolved symbols, with the action the recommendation step chose for their records |
| Pipeline.RecommendationNamesASymbol | src/app/api/chat/route.js:930-935 | the recommended stock is one of the analysed symbols |
| Pipeline.DistinctSymbolsReport | src/app/api/chat/route.js:890-1044 | with distinct symbols, all but the chosen one are alternatives, and the primary analysis is the chosen symbol's own record |
| Pipeline.FallbackSymbolsDistinct | src/app/api/chat/route.js:862-890 | symbols resolved through the name fallback are distinct |
| Pipeline.RepeatedTickerNotAnAlternative | src/app/api/chat/route.js:1035-1036 | a ticker repeated in the reply is never listed as an alternative to itself |

## Left out

- External calls: the quote, quote-summary and chart lookups, the news feed and every
  language-model call are left out. Their results are parameters:
  - a chart or quote is `None` when its fetch failed;
  - the model's symbol reply is `None` when the call failed;
  - `NarrativeOutcome` stands for the comparison answer and `AdvisorOutcome` for the
    recommendation answer.
- The news agent: the headline search, the model's sentiment answer and its JSON parsing are
  not modelled. The agent's sentiment and summary are inputs (`NewsData`).
- Pipeline.FanOut: `analyze` stands for any per-symbol analysis. The chaining of the agents
  is modelled separately by `Pipeline.RunAgents`, and `Pipeline.ChainedAgentsAgreeOnBeta`
  connects the two.
- The parsed answer of the comparison model, i.e. the branch taken when its JSON parses, is
  not modelled. Only the failure and unparsable branches are, because only those are
  deterministic.
- The recommendation model's parsed JSON: only its action and its comparison context are
  modelled. Confidence, key risks, opportunities, time horizon and rationale text are not.
- The concurrency of `Promise.all`, logging, markdown generation, the HTTP handler and schema
  validation with `zod` are not modelled.
- A stock record the schema would reject is not modelled either.
- `toFixed` rounding is treated as the identity everywhere. The displayed price target, SMA,
  RSI, MACD and risk figures are therefore the exact values, not rounded ones.
- Indicators.Sma: only defined for n >= 1. The route calls it with 20, 50 and 200 only.
- Risk.AssessRisk: when a close that divides a return is zero, that return is Infinity or
  NaN in JavaScript. JavaScript then reports no volatility (NaN is falsy), but for
  non-negative closes `r < 0` drops those returns, so it still computes the downside risk
  from the finite negative returns. The model reports neither in that case.
- Risk.AssessRisk: `Math.sqrt` is the `sqrt` parameter. Results hold for any function
  satisfying `IsSquareRoot`.
- Series.PresentCloses: the alternative chart shape, with closes under `indicators.quote[0]`,
  is not modelled. A chart is a list of optional closes.
- Fundamentals.FetchStockData: the `??` fallback chains of the provider fields are assumed
  resolved into `Quote`.
- Fundamentals.FetchStockData: EPS, volume, average volume, day and year ranges, dividend
  yield and exchange are not modelled.
- Fundamentals.DebtRatio: the conversion of provider values through `toNumber` (`{raw}`
  objects, numeric strings, non-finite numbers) is not modelled. A statement figure is an
  optional real.
- Symbols.ToUpper: upper-cases ASCII letters only, not the full Unicode case mapping.
- Symbols.Tokens: split on runs of non-letters. Empty tokens are dropped, since they never
  match a table name.
- Comparison.CompareStocks: requires at least one candidate. The route never calls it with
  none, because resolution guarantees at least one symbol.
- Pipeline.SynthesizeRecommendation: the fallback rationale text and the number formatting in
  it are not modelled. The comparison context is kept as the structured `Rationale`.
- Pipeline.AssembleReport: the summary, price change, fundamentals block, news line, technical
  block and risk block are not modelled. These are `x || null` copies of record fields.
- The report's recommendation block keeps only the action and the price target.
- With 21 rising closes the trend is neutral because SMA50 is still undefined; the RSI
  override plays no part in it (`Indicators.RisingTwentyOneCloses`).
- A symbol whose analysis fails becomes a degraded record, and the run raises no error even
  when every symbol fails (`Pipeline.Analysed`).
