/** One analysed candidate: the four agents' results for a symbol, and the degraded record
    that stands in for a symbol whose analysis failed. */
module Candidates {
  import opened Values
  import opened Indicators
  import opened Risk
  import opened Fundamentals

  /** The news agent's verdict; the agent itself is outside this model, so its sentiment
      and summary are inputs. */
  datatype NewsData = NewsData(sentiment: string, summary: string)

  datatype CandidateAnalysis = CandidateAnalysis(
    symbol: string,
    stock: StockData,
    news: NewsData,
    risk: RiskProfile,
    technical: TechnicalData)

  const RiskFailed: string := "Risk assessment failed"

  /** The record recorded for a symbol whose agents failed: the symbol as company name, a
      neutral sentiment, a neutral trend and no risk figures. */
  function Degraded(symbol: string): (c: CandidateAnalysis)
    ensures c.symbol == symbol
    ensures c.stock == MinimalStockData(symbol)
    ensures c.news == NewsData("neutral", "Analysis failed")
    ensures TrendOf(c.technical) == Some(Neutral)
    ensures c.risk.volatility.None? && c.risk.beta.None? && c.risk.downsideRisk.None?
    ensures c.risk.probabilityGain.None? && c.risk.probabilityLoss.None?
    ensures c.risk.scenarioAnalysis == RiskFailed
  {
    CandidateAnalysis(
      symbol,
      MinimalStockData(symbol),
      NewsData("neutral", "Analysis failed"),
      RiskProfile(None, None, None, None, None, RiskFailed),
      TrendOnly(Neutral))
  }
}
