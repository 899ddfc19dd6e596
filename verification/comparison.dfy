/** The comparison agent (`compareStocks`): the single-candidate shortcut, the deterministic
    fallback scorer used when the language model's answer cannot be parsed, and the
    default-to-first answer when the model call fails.

    The model's own parsed answer is not modelled: `NarrativeOutcome` only distinguishes the
    two outcomes that lead to deterministic code.
 */
module Comparison {
  import opened Values
  import opened Indicators
  import opened Fundamentals
  import opened Candidates

  // ---------------------------------------------------------------------------------------
  // The fallback score

  /** The six criteria of the fallback scorer, each a JavaScript truthiness test plus a
      threshold. */
  predicate TrendBullish(a: CandidateAnalysis) { TrendOf(a.technical) == Some(Bullish) }
  predicate PositiveNews(a: CandidateAnalysis) { a.news.sentiment == "positive" }
  predicate ModestValuation(a: CandidateAnalysis) {
    Known(a.stock.peRatio) && a.stock.peRatio.value < 25.0
  }
  predicate CalmPrice(a: CandidateAnalysis) {
    Known(a.risk.volatility) && a.risk.volatility.value < 30.0
  }
  predicate RisingPrice(a: CandidateAnalysis) {
    Known(a.stock.priceChangePercentage) && a.stock.priceChangePercentage.value > 0.0
  }
  predicate LowDebt(a: CandidateAnalysis) {
    Known(a.stock.debtRatio) && a.stock.debtRatio.value < 0.5
  }

  function Bonus(met: bool, points: nat): nat {
    if met then points else 0
  }

  /** The fallback score: 30 for a bullish trend, 20 for positive news, 15 for a P/E under
      25, 15 for volatility under 30, 10 for a rising price and 10 for a debt ratio under
      one half. */
  function Score(a: CandidateAnalysis): (s: nat)
    ensures s <= 100
  {
    Bonus(TrendBullish(a), 30) + Bonus(PositiveNews(a), 20) + Bonus(ModestValuation(a), 15)
    + Bonus(CalmPrice(a), 15) + Bonus(RisingPrice(a), 10) + Bonus(LowDebt(a), 10)
  }

  /** A candidate meeting every criterion another meets scores at least as high. */
  lemma ScoreMonotone(a: CandidateAnalysis, b: CandidateAnalysis)
    requires TrendBullish(b) ==> TrendBullish(a)
    requires PositiveNews(b) ==> PositiveNews(a)
    requires ModestValuation(b) ==> ModestValuation(a)
    requires CalmPrice(b) ==> CalmPrice(a)
    requires RisingPrice(b) ==> RisingPrice(a)
    requires LowDebt(b) ==> LowDebt(a)
    ensures Score(b) <= Score(a)
  {
  }

  /** Nothing is scored exactly when no criterion holds. */
  lemma ZeroScoreIffNoCriteria(a: CandidateAnalysis)
    ensures Score(a) == 0 <==>
      !TrendBullish(a) && !PositiveNews(a) && !ModestValuation(a) && !CalmPrice(a)
      && !RisingPrice(a) && !LowDebt(a)
  {
  }

  /** The full 100 points are reached exactly when all six criteria hold. */
  lemma FullScoreIffAllCriteria(a: CandidateAnalysis)
    ensures Score(a) == 100 <==>
      TrendBullish(a) && PositiveNews(a) && ModestValuation(a) && CalmPrice(a)
      && RisingPrice(a) && LowDebt(a)
  {
  }

  // ---------------------------------------------------------------------------------------
  // The running best

  /** The loop state after some candidates: the current best index and its score. */
  datatype Leader = Leader(index: nat, score: nat)

  /** The loop state after the first `n` candidates. It starts at candidate 0 with score 0
      and moves only on a strictly greater score. */
  function LeaderAfter(a: seq<CandidateAnalysis>, n: nat): (l: Leader)
    requires 1 <= |a| && n <= |a|
    ensures l.index < |a|
    ensures n == 0 ==> l == Leader(0, 0)
    ensures n > 0 ==> l.index < n && Score(a[l.index]) == l.score
    ensures forall j :: 0 <= j < n ==> Score(a[j]) <= l.score
    ensures forall j :: 0 <= j < l.index ==> Score(a[j]) < l.score
    decreases n
  {
    if n == 0 then Leader(0, 0)
    else
      var prev := LeaderAfter(a, n - 1);
      if Score(a[n - 1]) > prev.score then Leader(n - 1, Score(a[n - 1])) else prev
  }

  /** The fallback winner: the first candidate attaining the highest score, candidate 0 when
      every candidate scores zero. */
  function FallbackWinner(a: seq<CandidateAnalysis>): (w: nat)
    requires |a| >= 1
    ensures w < |a|
    ensures forall j :: 0 <= j < |a| ==> Score(a[j]) <= Score(a[w])
    ensures forall j :: 0 <= j < w ==> Score(a[j]) < Score(a[w])
  {
    LeaderAfter(a, |a|).index
  }

  /** The loop of the handler, statement by statement. */
  method PickFallbackWinner(a: seq<CandidateAnalysis>) returns (best: nat, bestScore: nat)
    requires |a| >= 1
    ensures best == FallbackWinner(a) && bestScore == Score(a[best])
  {
    best, bestScore := 0, 0;
    var i := 0;
    while i < |a|
      invariant 0 <= i <= |a|
      invariant LeaderAfter(a, i) == Leader(best, bestScore)
    {
      var score := Score(a[i]);
      if score > bestScore {
        bestScore := score;
        best := i;
      }
      i := i + 1;
    }
    var l := LeaderAfter(a, |a|);
    assert l.index == best && l.score == bestScore;
  }

  /** Any index with the two winner properties is the winner: they characterise it. */
  lemma WinnerUnique(a: seq<CandidateAnalysis>, w: nat)
    requires |a| >= 1 && w < |a|
    requires forall j :: 0 <= j < |a| ==> Score(a[j]) <= Score(a[w])
    requires forall j :: 0 <= j < w ==> Score(a[j]) < Score(a[w])
    ensures w == FallbackWinner(a)
  {
  }

  /** When every candidate scores zero, candidate 0 wins. */
  lemma AllZeroPicksFirst(a: seq<CandidateAnalysis>)
    requires |a| >= 1
    requires forall j :: 0 <= j < |a| ==> Score(a[j]) == 0
    ensures FallbackWinner(a) == 0
  {
    var w := FallbackWinner(a);
    assert Score(a[w]) == 0;
    assert Score(a[0]) == 0;
  }

  /** A tie keeps the earlier candidate. */
  lemma TieKeepsEarlier(a: seq<CandidateAnalysis>, i: nat, j: nat)
    requires i < j < |a|
    requires Score(a[i]) == Score(a[j])
    ensures FallbackWinner(a) != j
  {
  }

  // ---------------------------------------------------------------------------------------
  // compareStocks

  /** How the language-model comparison ended when it did not produce a usable answer. */
  datatype NarrativeOutcome = ServiceFailed | Unparsable

  /** The explanation attached to a comparison result; `Text` spells it as the handler does. */
  datatype Rationale =
    | SingleStock(symbol: string)
    | ScoredBest(symbol: string, trend: Option<Trend>, sentiment: string)
    | DefaultedToFirst
  {
    function Text(): string {
      match this
      case SingleStock(symbol) => "Analysis of " + symbol + " completed."
      case ScoredBest(symbol, trend, sentiment) =>
        symbol + " emerged as the best choice based on a combination of technical trend ("
        + TrendText(trend) + "), news sentiment (" + sentiment
        + "), and fundamental metrics. This stock scored highest across multiple evaluation criteria."
      case DefaultedToFirst =>
        "Comparison analysis encountered technical difficulties. Defaulting to first stock."
    }
  }

  datatype ComparisonResult = ComparisonResult(
    bestStock: string,
    isComparison: bool,
    comparisonRationale: Rationale,
    rankingFactors: Option<seq<string>>,
    individualAnalysis: bool)

  const RankingFactors: seq<string> := ["Technical Analysis", "Fundamental Strength", "Risk Assessment"]

  /** How a trend is spelled in a template string; an absent trend prints as "undefined". */
  function TrendText(t: Option<Trend>): string {
    match t
    case Some(Bullish) => "bullish"
    case Some(Bearish) => "bearish"
    case Some(Neutral) => "neutral"
    case None => "undefined"
  }

  /** `compareStocks` for one or more candidates. */
  function CompareStocks(a: seq<CandidateAnalysis>, outcome: NarrativeOutcome): (r: ComparisonResult)
    requires |a| >= 1
    ensures |a| == 1 ==>
      r == ComparisonResult(a[0].symbol, false, SingleStock(a[0].symbol), None, true)
    ensures |a| > 1 ==> r.isComparison && !r.individualAnalysis
    ensures |a| > 1 && outcome == ServiceFailed ==>
      r.bestStock == a[0].symbol && r.comparisonRationale == DefaultedToFirst
      && r.rankingFactors.None?
    ensures |a| > 1 && outcome == Unparsable ==>
      var w := a[FallbackWinner(a)];
      && r.bestStock == w.symbol
      && r.rankingFactors == Some(RankingFactors)
      && r.comparisonRationale == ScoredBest(w.symbol, TrendOf(w.technical), w.news.sentiment)
  {
    if |a| <= 1 then
      ComparisonResult(a[0].symbol, false, SingleStock(a[0].symbol), None, true)
    else if outcome == ServiceFailed then
      ComparisonResult(a[0].symbol, |a| > 1, DefaultedToFirst, None, false)
    else
      var w := a[FallbackWinner(a)];
      ComparisonResult(w.symbol, true, ScoredBest(w.symbol, TrendOf(w.technical), w.news.sentiment),
                       Some(RankingFactors), false)
  }

  /** Whatever happens, the best stock is the symbol of one of the candidates, and a
      comparison is reported exactly when there are several candidates. */
  lemma BestStockIsACandidate(a: seq<CandidateAnalysis>, outcome: NarrativeOutcome)
    requires |a| >= 1
    ensures exists j :: 0 <= j < |a| && a[j].symbol == CompareStocks(a, outcome).bestStock
    ensures CompareStocks(a, outcome).isComparison <==> |a| > 1
  {
    var r := CompareStocks(a, outcome);
    if |a| > 1 && outcome == Unparsable {
      assert a[FallbackWinner(a)].symbol == r.bestStock;
    } else {
      assert a[0].symbol == r.bestStock;
    }
  }

  /** A bullish candidate with positive news beats an otherwise identical neutral one
      placed before it. */
  lemma FallbackPrefersStrongerLater(a: CandidateAnalysis, b: CandidateAnalysis)
    requires !TrendBullish(a) && !PositiveNews(a)
    requires TrendBullish(b) && PositiveNews(b)
    requires a.stock == b.stock && a.risk == b.risk
    ensures CompareStocks([a, b], Unparsable).bestStock == b.symbol
  {
    var s := [a, b];
    assert Score(s[0]) < Score(s[1]);
  }
}
