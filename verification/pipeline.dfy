/** The analysis run (`runMultiAgentAnalysis`) once the symbols are resolved: one record per
    symbol, the recommendation built on the comparison, the choice of the primary analysis,
    its price target and the alternatives listed beside it.

    The agents, the language model and the data providers are outside this model: what
    they return is a parameter (`analyze`, `NarrativeOutcome`, `AdvisorOutcome`).
 */
module Pipeline {
  import opened Values
  import opened Indicators
  import opened Risk
  import opened Fundamentals
  import opened Candidates
  import opened Comparison
  import opened PriceTarget
  import opened Symbols

  // ---------------------------------------------------------------------------------------
  // One record per symbol

  /** The four agents' results for one symbol. */
  datatype AgentReports = AgentReports(
    stock: StockData,
    news: NewsData,
    risk: RiskProfile,
    technical: TechnicalData)

  /** The record kept for a symbol: its agents' results, or the degraded record when one of
      the agents failed (None). */
  function Analysed(symbol: string, reports: Option<AgentReports>): (c: CandidateAnalysis)
    ensures c.symbol == symbol
    ensures reports.None? ==> c == Degraded(symbol)
    ensures reports.Some? ==>
      && c.stock == reports.value.stock && c.news == reports.value.news
      && c.risk == reports.value.risk && c.technical == reports.value.technical
  {
    match reports
    case None => Degraded(symbol)
    case Some(r) => CandidateAnalysis(symbol, r.stock, r.news, r.risk, r.technical)
  }

  /** What the outside world supplies to the four agents for one symbol: the quote (None when
      its lookup failed), the balance sheets, the news agent's verdict, the risk agent's chart
      and scenario text (None when the chart fetch or the text call failed) and the technical
      agent's chart. */
  datatype AgentInputs = AgentInputs(
    quote: Option<Quote>,
    statements: seq<BalanceSheet>,
    news: NewsData,
    riskChart: Option<seq<Option<real>>>,
    scenario: Option<string>,
    technicalChart: Option<seq<Option<real>>>)

  /** The four agents as the run chains them for one symbol: the risk agent receives the
      data agent's record and reports its beta. */
  function RunAgents(symbol: string, inputs: AgentInputs, sqrt: real -> real): (reports: AgentReports)
    requires IsSquareRoot(sqrt)
    ensures reports.stock == FetchStockData(symbol, inputs.quote, inputs.statements)
    ensures reports.news == inputs.news
    ensures reports.risk == AssessRisk(inputs.riskChart, inputs.scenario, reports.stock.beta, sqrt)
    ensures reports.technical == PerformTechnicalAnalysis(inputs.technicalChart)
    ensures reports.risk.beta == OrNull(reports.stock.beta)
  {
    var stock := FetchStockData(symbol, inputs.quote, inputs.statements);
    AgentReports(stock, inputs.news, AssessRisk(inputs.riskChart, inputs.scenario, stock.beta, sqrt),
                 PerformTechnicalAnalysis(inputs.technicalChart))
  }

  /** `Promise.all(symbols.map(...))` without the concurrency: `analyze` stands for the four
      agents run on one symbol, None when any of them throws. */
  function FanOut(symbols: seq<string>, analyze: string -> Option<AgentReports>): (a: seq<CandidateAnalysis>)
    ensures |a| == |symbols|
    ensures forall i :: 0 <= i < |a| ==> a[i] == Analysed(symbols[i], analyze(symbols[i]))
    decreases |symbols|
  {
    if |symbols| == 0 then []
    else [Analysed(symbols[0], analyze(symbols[0]))] + FanOut(symbols[1..], analyze)
  }

  /** When every symbol either fails or runs the chained agents, every record's risk beta is
      its stock beta read as `beta || null`; a degraded record has neither. */
  lemma {:induction false} ChainedAgentsAgreeOnBeta(symbols: seq<string>,
                                                  analyze: string -> Option<AgentReports>,
                                                  inputs: string -> AgentInputs, sqrt: real -> real)
    requires IsSquareRoot(sqrt)
    requires forall s :: analyze(s).None? || analyze(s) == Some(RunAgents(s, inputs(s), sqrt))
    ensures forall i :: 0 <= i < |symbols| ==>
      FanOut(symbols, analyze)[i].risk.beta == OrNull(FanOut(symbols, analyze)[i].stock.beta)
  {
    var a := FanOut(symbols, analyze);
    forall i | 0 <= i < |symbols| ensures a[i].risk.beta == OrNull(a[i].stock.beta) {
      if analyze(symbols[i]).Some? {
        var reports := RunAgents(symbols[i], inputs(symbols[i]), sqrt);
        assert a[i].risk == reports.risk && a[i].stock == reports.stock;
      }
    }
  }

  /** The symbols of a list of records. */
  function SymbolsOf(a: seq<CandidateAnalysis>): (s: seq<string>)
    ensures |s| == |a|
    ensures forall i :: 0 <= i < |a| ==> s[i] == a[i].symbol
  {
    seq(|a|, i requires 0 <= i < |a| => a[i].symbol)
  }

  /** The fan-out keeps the symbols and their order, failed or not. */
  lemma FanOutKeepsSymbols(symbols: seq<string>, analyze: string -> Option<AgentReports>)
    ensures SymbolsOf(FanOut(symbols, analyze)) == symbols
  {
  }

  /** Fanning out a concatenation is concatenating the fan-outs: each symbol is analysed on
      its own. */
  lemma FanOutAppend(s: seq<string>, t: seq<string>, analyze: string -> Option<AgentReports>)
    ensures FanOut(s + t, analyze) == FanOut(s, analyze) + FanOut(t, analyze)
  {
    var l := FanOut(s + t, analyze);
    var r := FanOut(s, analyze) + FanOut(t, analyze);
    forall i | 0 <= i < |l| ensures l[i] == r[i] {
      if i < |s| {
        assert (s + t)[i] == s[i];
      } else {
        assert (s + t)[i] == t[i - |s|];
      }
    }
  }

  // ---------------------------------------------------------------------------------------
  // Find-or-first

  /** The first index whose record is for `s`, if any. */
  function FirstMatch(a: seq<CandidateAnalysis>, s: string): (k: Option<nat>)
    ensures k.Some? ==> k.value < |a| && a[k.value].symbol == s
    ensures k.Some? ==> forall j :: 0 <= j < k.value ==> a[j].symbol != s
    ensures k.None? <==> forall j :: 0 <= j < |a| ==> a[j].symbol != s
    decreases |a|
  {
    if |a| == 0 then None
    else if a[0].symbol == s then Some(0)
    else
      match FirstMatch(a[1..], s)
      case Some(k) => Some(k + 1)
      case None => None
  }

  /** `a.find(r => r.symbol === s) || a[0]`. */
  function FindOrFirst(a: seq<CandidateAnalysis>, s: string): (c: CandidateAnalysis)
    requires |a| >= 1
    ensures c in a
    ensures (exists j :: 0 <= j < |a| && a[j].symbol == s) ==> c.symbol == s
    ensures (forall j :: 0 <= j < |a| ==> a[j].symbol != s) ==> c == a[0]
  {
    match FirstMatch(a, s)
    case Some(k) => a[k]
    case None => a[0]
  }

  /** The record found is the first one for the symbol. */
  lemma {:induction false} FindOrFirstIsFirst(a: seq<CandidateAnalysis>, k: nat)
    requires k < |a|
    requires forall j :: 0 <= j < k ==> a[j].symbol != a[k].symbol
    ensures FindOrFirst(a, a[k].symbol) == a[k]
  {
    assert FirstMatch(a, a[k].symbol).Some?;
  }

  // ---------------------------------------------------------------------------------------
  // synthesizeRecommendation

  /** How the advisor model's answer ended: parsed (its action and its comparison context,
      which it may leave out), unparsable, or the call failed. */
  datatype AdvisorOutcome =
    | Advised(action: string, context: Option<string>)
    | AdvisorUnparsable
    | AdvisorFailed

  /** The fields of the recommendation the rest of the run reads. */
  datatype Recommendation = Recommendation(
    action: string,
    bestStock: string,
    isComparison: bool,
    totalStocksAnalyzed: nat,
    comparisonContext: Option<string>)

  const Hold: string := "Hold"
  const AnalysisFailed: string := "Analysis failed"

  /** `synthesizeRecommendation`: the comparison decides the best stock unless the advisor
      call fails, in which case the first record is held. */
  function SynthesizeRecommendation(a: seq<CandidateAnalysis>, narrative: NarrativeOutcome,
                                    advisor: AdvisorOutcome): (r: Recommendation)
    requires |a| >= 1
    ensures r.totalStocksAnalyzed == |a|
    ensures r.isComparison <==> |a| > 1
    ensures exists j :: 0 <= j < |a| && a[j].symbol == r.bestStock
    ensures advisor.AdvisorFailed? ==>
      r == Recommendation(Hold, a[0].symbol, |a| > 1, |a|, Some(AnalysisFailed))
    ensures !advisor.AdvisorFailed? ==> r.bestStock == CompareStocks(a, narrative).bestStock
    ensures advisor.AdvisorUnparsable? ==>
      r.action == Hold
      && r.comparisonContext == Some(CompareStocks(a, narrative).comparisonRationale.Text())
    ensures advisor.Advised? ==> r.action == advisor.action && r.comparisonContext == advisor.context
  {
    BestStockIsACandidate(a, narrative);
    var comparison := CompareStocks(a, narrative);
    match advisor
    case AdvisorFailed =>
      Recommendation(Hold, a[0].symbol, |a| > 1, |a|, Some(AnalysisFailed))
    case AdvisorUnparsable =>
      Recommendation(Hold, comparison.bestStock, comparison.isComparison, |a|,
                     Some(comparison.comparisonRationale.Text()))
    case Advised(action, context) =>
      Recommendation(action, comparison.bestStock, comparison.isComparison, |a|, context)
  }

  // ---------------------------------------------------------------------------------------
  // Alternatives

  /** One entry of `alternativeOptions`. */
  datatype Alternative = Alternative(
    symbol: string,
    company: string,
    price: Option<real>,
    marketCap: Option<MarketCap>,
    trend: Option<Trend>,
    sentiment: string)

  function AlternativeOf(c: CandidateAnalysis): (alt: Alternative)
    ensures alt.symbol == c.symbol
    ensures alt.company == TextOr(c.stock.companyName, c.symbol)
  {
    Alternative(c.symbol, TextOr(c.stock.companyName, c.symbol), c.stock.price, c.stock.marketCap,
                TrendOf(c.technical), c.news.sentiment)
  }

  /** Every record rendered as an alternative, in order. */
  function AllAlternatives(a: seq<CandidateAnalysis>): (alts: seq<Alternative>)
    ensures |alts| == |a|
    ensures forall i :: 0 <= i < |a| ==> alts[i] == AlternativeOf(a[i])
    decreases |a|
  {
    if |a| == 0 then [] else [AlternativeOf(a[0])] + AllAlternatives(a[1..])
  }

  /** How many records are for symbol `s`. */
  function Count(a: seq<CandidateAnalysis>, s: string): (n: nat)
    ensures n <= |a|
    ensures n == 0 <==> forall j :: 0 <= j < |a| ==> a[j].symbol != s
    decreases |a|
  {
    if |a| == 0 then 0 else (if a[0].symbol == s then 1 else 0) + Count(a[1..], s)
  }

  /** `filter(r => r.symbol !== s).map(...)`: every record not for `s`, as an alternative. */
  function Alternatives(a: seq<CandidateAnalysis>, s: string): (alts: seq<Alternative>)
    ensures |alts| + Count(a, s) == |a|
    ensures forall i :: 0 <= i < |alts| ==> alts[i].symbol != s
    ensures forall j :: 0 <= j < |a| && a[j].symbol != s ==> AlternativeOf(a[j]) in alts
    decreases |a|
  {
    if |a| == 0 then []
    else
      var rest := Alternatives(a[1..], s);
      assert forall j :: 1 <= j < |a| ==> a[j] == a[1..][j - 1];
      if a[0].symbol != s then [AlternativeOf(a[0])] + rest else rest
  }

  /** The alternatives keep the order of the records. */
  lemma {:induction false} AlternativesInOrder(a: seq<CandidateAnalysis>, s: string)
    ensures IsSubsequence(Alternatives(a, s), AllAlternatives(a))
    decreases |a|
  {
    if |a| > 0 {
      AlternativesInOrder(a[1..], s);
      var rest := Alternatives(a[1..], s);
      var all := AllAlternatives(a);
      assert all[1..] == AllAlternatives(a[1..]);
      if a[0].symbol != s {
        assert ([AlternativeOf(a[0])] + rest)[1..] == rest;
      } else {
        SubsequenceOfTail(rest, all);
      }
    }
  }

  /** A symbol occurring once leaves all the other records as alternatives. */
  lemma {:induction false} CountOfDistinct(a: seq<CandidateAnalysis>, k: nat)
    requires k < |a|
    requires forall i, j :: 0 <= i < j < |a| ==> a[i].symbol != a[j].symbol
    ensures Count(a, a[k].symbol) == 1
    decreases |a|
  {
    if k > 0 {
      assert a[1..][k - 1] == a[k];
      CountOfDistinct(a[1..], k - 1);
    } else {
      assert forall j :: 0 <= j < |a[1..]| ==> a[1..][j] == a[j + 1];
    }
  }

  // ---------------------------------------------------------------------------------------
  // The structured output

  datatype Report = Report(
    stock: string,
    company: string,
    isComparison: bool,
    totalStocksAnalyzed: nat,
    comparisonContext: string,
    currentPrice: Option<real>,
    trend: Trend,
    action: string,
    priceTarget: Target,
    allStocksAnalyzed: seq<string>,
    alternatives: seq<Alternative>)

  const SingleStockAnalysis: string := "Single stock analysis"

  /** `structuredOutput`: the recommended stock (`bestStock || symbols[0]`), its record (found,
      else the first), the price target on that record and the other records. */
  function AssembleReport(symbols: seq<string>, a: seq<CandidateAnalysis>, rec: Recommendation): (r: Report)
    requires |symbols| >= 1 && |a| >= 1
    ensures |rec.bestStock| > 0 ==> r.stock == rec.bestStock
    ensures |rec.bestStock| == 0 ==> r.stock == symbols[0]
    ensures r.allStocksAnalyzed == symbols
    ensures r.isComparison == rec.isComparison
    ensures r.totalStocksAnalyzed >= 1
    ensures r.totalStocksAnalyzed == (if rec.totalStocksAnalyzed == 0 then 1 else rec.totalStocksAnalyzed)
    ensures r.comparisonContext == TextOr(rec.comparisonContext, SingleStockAnalysis)
    ensures r.action == rec.action
    ensures |r.alternatives| + Count(a, r.stock) == |a|
    ensures forall i :: 0 <= i < |r.alternatives| ==> r.alternatives[i].symbol != r.stock
    ensures r.company == TextOr(FindOrFirst(a, r.stock).stock.companyName, r.stock)
    ensures TrendOf(FindOrFirst(a, r.stock).technical).Some? ==>
      r.trend == TrendOf(FindOrFirst(a, r.stock).technical).value
    ensures TrendOf(FindOrFirst(a, r.stock).technical).None? ==> r.trend == Neutral
    ensures (exists j :: 0 <= j < |a| && a[j].symbol == r.stock) ==>
      var p := FindOrFirst(a, r.stock);
      && p.symbol == r.stock
      && r.currentPrice == OrNull(p.stock.price)
      && r.priceTarget == GeneratePriceTarget(p.stock.price, TrendOf(p.technical), p.stock.peRatio, rec.action)
    ensures var p := FindOrFirst(a, r.stock);
      && r.currentPrice == OrNull(p.stock.price)
      && r.priceTarget == GeneratePriceTarget(p.stock.price, TrendOf(p.technical), p.stock.peRatio, r.action)
  {
    var stock := StringOr(rec.bestStock, symbols[0]);
    var p := FindOrFirst(a, stock);
    Report(
      stock,
      TextOr(p.stock.companyName, stock),
      rec.isComparison,
      if rec.totalStocksAnalyzed == 0 then 1 else rec.totalStocksAnalyzed,
      TextOr(rec.comparisonContext, SingleStockAnalysis),
      OrNull(p.stock.price),
      match TrendOf(p.technical) case Some(t) => t case None => Neutral,
      rec.action,
      GeneratePriceTarget(p.stock.price, TrendOf(p.technical), p.stock.peRatio, rec.action),
      symbols,
      Alternatives(a, stock))
  }

  // ---------------------------------------------------------------------------------------
  // The whole run

  /** Steps 2 to 6 of the run on resolved symbols: analyse each, recommend, report. */
  function AnalyseSymbols(symbols: seq<string>, analyze: string -> Option<AgentReports>,
                          narrative: NarrativeOutcome, advisor: AdvisorOutcome): (r: Report)
    requires 1 <= |symbols|
    requires forall i :: 0 <= i < |symbols| ==> IsTicker(symbols[i])
    ensures r.allStocksAnalyzed == symbols
    ensures r.stock in symbols
    ensures r.totalStocksAnalyzed == |symbols|
    ensures r.isComparison <==> |symbols| > 1
    ensures |r.alternatives| < |symbols|
    ensures r.action == SynthesizeRecommendation(FanOut(symbols, analyze), narrative, advisor).action
  {
    var a := FanOut(symbols, analyze);
    var rec := SynthesizeRecommendation(a, narrative, advisor);
    RecommendationNamesASymbol(symbols, a, rec);
    AssembleReport(symbols, a, rec)
  }

  /** `runMultiAgentAnalysis`: resolve the symbols, then analyse them. */
  function RunAnalysis(text: string, reply: Option<string>, analyze: string -> Option<AgentReports>,
                       narrative: NarrativeOutcome, advisor: AdvisorOutcome): (r: Result<Report, string>)
    ensures r.Failure? <==> ResolveSymbols(text, reply).Failure?
    ensures r.Failure? ==> r.error == ResolveSymbols(text, reply).error
    ensures r.Success? ==>
      var symbols := ResolveSymbols(text, reply).value;
      && r.value.allStocksAnalyzed == symbols
      && r.value.stock in symbols
      && r.value.totalStocksAnalyzed == |symbols|
      && (r.value.isComparison <==> |symbols| > 1)
      && |r.value.alternatives| < |symbols|
      && r.value.action == SynthesizeRecommendation(FanOut(symbols, analyze), narrative, advisor).action
  {
    match ResolveSymbols(text, reply)
    case Failure(e) => Failure(e)
    case Success(symbols) => Success(AnalyseSymbols(symbols, analyze, narrative, advisor))
  }

  /** The recommended stock is a non-empty ticker among the symbols, so the report keeps it
      and its record is found. */
  lemma {:induction false} RecommendationNamesASymbol(symbols: seq<string>, a: seq<CandidateAnalysis>, rec: Recommendation)
    requires |symbols| >= 1 && |a| == |symbols|
    requires forall i :: 0 <= i < |symbols| ==> IsTicker(symbols[i]) && a[i].symbol == symbols[i]
    requires exists j :: 0 <= j < |a| && a[j].symbol == rec.bestStock
    ensures rec.bestStock in symbols && |rec.bestStock| > 0
    ensures AssembleReport(symbols, a, rec).stock == rec.bestStock
    ensures Count(a, rec.bestStock) >= 1
  {
    var j :| 0 <= j < |a| && a[j].symbol == rec.bestStock;
    assert symbols[j] == rec.bestStock;
  }

  /** With distinct symbols (always the case on the fallback path), every symbol but the
      recommended one is listed as an alternative, and the report is built on the
      recommended symbol's own record. */
  lemma {:induction false} DistinctSymbolsReport(symbols: seq<string>, analyze: string -> Option<AgentReports>,
                                                 narrative: NarrativeOutcome, advisor: AdvisorOutcome)
    requires 1 <= |symbols|
    requires forall i :: 0 <= i < |symbols| ==> IsTicker(symbols[i])
    requires forall i, j :: 0 <= i < j < |symbols| ==> symbols[i] != symbols[j]
    ensures var r := AnalyseSymbols(symbols, analyze, narrative, advisor);
      && |r.alternatives| == |symbols| - 1
      && FindOrFirst(FanOut(symbols, analyze), r.stock) == Analysed(r.stock, analyze(r.stock))
  {
    var a := FanOut(symbols, analyze);
    var rec := SynthesizeRecommendation(a, narrative, advisor);
    RecommendationNamesASymbol(symbols, a, rec);
    AnalyseSymbolsSteps(symbols, analyze, narrative, advisor);
    var k :| 0 <= k < |a| && a[k].symbol == rec.bestStock;
    FanOutDistinct(symbols, analyze);
    DistinctReport(symbols, a, rec, k);
  }

  /** The run on resolved symbols is the report on the fan-out and its recommendation. */
  lemma AnalyseSymbolsSteps(symbols: seq<string>, analyze: string -> Option<AgentReports>,
                            narrative: NarrativeOutcome, advisor: AdvisorOutcome)
    requires 1 <= |symbols|
    requires forall i :: 0 <= i < |symbols| ==> IsTicker(symbols[i])
    ensures var a := FanOut(symbols, analyze);
      AnalyseSymbols(symbols, analyze, narrative, advisor)
        == AssembleReport(symbols, a, SynthesizeRecommendation(a, narrative, advisor))
  {
  }

  lemma {:induction false} FanOutDistinct(symbols: seq<string>, analyze: string -> Option<AgentReports>)
    requires forall i, j :: 0 <= i < j < |symbols| ==> symbols[i] != symbols[j]
    ensures var a := FanOut(symbols, analyze);
      forall i, j :: 0 <= i < j < |a| ==> a[i].symbol != a[j].symbol
  {
  }

  lemma {:induction false} DistinctReport(symbols: seq<string>, a: seq<CandidateAnalysis>,
                                          rec: Recommendation, k: nat)
    requires |symbols| >= 1 && k < |a|
    requires forall i, j :: 0 <= i < j < |a| ==> a[i].symbol != a[j].symbol
    requires a[k].symbol == rec.bestStock && |rec.bestStock| > 0
    ensures var r := AssembleReport(symbols, a, rec);
      && r.stock == a[k].symbol
      && |r.alternatives| == |a| - 1
      && FindOrFirst(a, r.stock) == a[k]
  {
    CountOfDistinct(a, k);
    FindOrFirstIsFirst(a, k);
  }

  /** The fallback path always yields distinct symbols. */
  lemma {:induction false} FallbackSymbolsDistinct(text: string, reply: Option<string>)
    requires ResolveSymbols(text, reply).Success?
    requires reply.None? || ExtractSymbols(reply.value).Failure?
    ensures var s := ResolveSymbols(text, reply).value;
      forall i, j :: 0 <= i < j < |s| ==> s[i] != s[j]
  {
    var s := ResolveSymbols(text, reply).value;
    assert DetectedSymbols(text, reply) == FallbackSymbols(text);
    PrefixDistinct(s, FallbackSymbols(text));
  }

  lemma PrefixDistinct(s: seq<string>, f: seq<string>)
    requires s <= f
    requires forall i, j :: 0 <= i < j < |f| ==> f[i] != f[j]
    ensures forall i, j :: 0 <= i < j < |s| ==> s[i] != s[j]
  {
    assert forall i :: 0 <= i < |s| ==> s[i] == f[i];
  }

  /** The same ticker named twice by the model is analysed twice, and neither copy is
      listed as an alternative to it. */
  lemma {:induction false} RepeatedTickerNotAnAlternative(c: CandidateAnalysis, d: CandidateAnalysis)
    requires c.symbol == d.symbol
    ensures Alternatives([c, d], c.symbol) == []
  {
  }
}
