/** The data agent's derived fundamentals: the compact market-capitalisation figure, the
    debt ratio of the latest balance sheet, and the absolute price change derived from the
    percentage change when the provider omits it.

    Provider lookups (quote, quote summary) are inputs; every `a ?? b ?? c` fallback chain
    of the handler is assumed already resolved into one optional field of `Quote`.
 */
module Fundamentals {
  import opened Values

  // ---------------------------------------------------------------------------------------
  // Market capitalisation

  datatype Magnitude = Trillions | Billions | Millions

  /** A market capitalisation as the handler renders it: a mantissa with a T/B/M suffix, or
      the plain number below a million. */
  datatype MarketCap = Scaled(mantissa: real, magnitude: Magnitude) | Plain(amount: real)

  function Size(m: Magnitude): (r: real)
    ensures r >= 1000000.0
  {
    match m
    case Trillions => 1000000000000.0
    case Billions => 1000000000.0
    case Millions => 1000000.0
  }

  /** The number a rendered market capitalisation stands for. */
  function Amount(c: MarketCap): real {
    match c
    case Scaled(mantissa, magnitude) => mantissa * Size(magnitude)
    case Plain(amount) => amount
  }

  /** `normalizeMarketCap`: the largest of T (1e12), B (1e9), M (1e6) not exceeding the
      magnitude of the value, or the plain number below a million. */
  function NormalizeMarketCap(value: Option<real>): (c: Option<MarketCap>)
    ensures c.None? <==> value.None?
    ensures c.Some? ==> Amount(c.value) == value.value
    ensures c.Some? ==> (c.value.Plain? <==> Abs(value.value) < 1000000.0)
    ensures c.Some? && c.value.Scaled? ==> Size(c.value.magnitude) <= Abs(value.value)
  {
    if value.None? then None
    else
      var num := value.value;
      var abs := Abs(num);
      if abs >= 1000000000000.0 then Some(Scaled(num / 1000000000000.0, Trillions))
      else if abs >= 1000000000.0 then Some(Scaled(num / 1000000000.0, Billions))
      else if abs >= 1000000.0 then Some(Scaled(num / 1000000.0, Millions))
      else Some(Plain(num))
  }

  /** The chosen suffix is the largest that fits: below a trillion the mantissa stays under a
      thousand in magnitude, and it is never below one. */
  lemma MarketCapMantissaRange(value: real)
    ensures var c := NormalizeMarketCap(Some(value)).value;
      c.Scaled? ==>
        && 1.0 <= Abs(c.mantissa)
        && (c.magnitude != Trillions ==> Abs(c.mantissa) < 1000.0)
  {
  }

  /** A value and its negation render with the same suffix and opposite mantissas. */
  lemma MarketCapSymmetric(value: real)
    ensures var c := NormalizeMarketCap(Some(value)).value;
      var d := NormalizeMarketCap(Some(-value)).value;
      && c.Scaled? == d.Scaled?
      && (c.Scaled? ==> c.magnitude == d.magnitude && c.mantissa == -d.mantissa)
      && (c.Plain? ==> c.amount == -d.amount)
  {
  }

  // ---------------------------------------------------------------------------------------
  // Debt ratio

  datatype BalanceSheet = BalanceSheet(totalLiabilities: Option<real>, totalAssets: Option<real>)

  /** Liabilities over assets of the first (latest) statement, defined only when that
      statement has both figures and the assets are not zero. */
  function DebtRatio(statements: seq<BalanceSheet>): (r: Option<real>)
    ensures r.Some? <==>
      && |statements| > 0
      && statements[0].totalLiabilities.Some?
      && statements[0].totalAssets.Some?
      && statements[0].totalAssets.value != 0.0
    ensures r.Some? ==>
      r.value * statements[0].totalAssets.value == statements[0].totalLiabilities.value
  {
    if |statements| == 0 then None
    else
      var latest := statements[0];
      if latest.totalLiabilities.Some? && latest.totalAssets.Some? && latest.totalAssets.value != 0.0
      then Some(latest.totalLiabilities.value / latest.totalAssets.value)
      else None
  }

  /** Only the latest statement matters. */
  lemma DebtRatioUsesLatest(latest: BalanceSheet, older: seq<BalanceSheet>)
    ensures DebtRatio([latest] + older) == DebtRatio([latest])
  {
  }

  /** Liabilities that never exceed positive assets give a ratio in [0, 1]. */
  lemma DebtRatioBounded(statements: seq<BalanceSheet>)
    requires |statements| > 0
    requires statements[0].totalLiabilities.Some? && statements[0].totalAssets.Some?
    requires 0.0 <= statements[0].totalLiabilities.value <= statements[0].totalAssets.value
    requires statements[0].totalAssets.value > 0.0
    ensures DebtRatio(statements).Some?
    ensures 0.0 <= DebtRatio(statements).value <= 1.0
  {
    var l := statements[0].totalLiabilities.value;
    var a := statements[0].totalAssets.value;
    var r := DebtRatio(statements).value;
    assert r * a == l;
    QuotientBounds(l, a, r);
  }

  lemma QuotientBounds(l: real, a: real, r: real)
    requires a > 0.0 && 0.0 <= l <= a && r * a == l
    ensures 0.0 <= r <= 1.0
  {
    ProductSign(r, a, l);
    ProductSign(r - 1.0, a, l - a);
  }

  // ---------------------------------------------------------------------------------------
  // Price change

  /** The absolute change: the provider's when present, otherwise `price * pct / 100` when
      both the price and the percentage are present. */
  function DerivePriceChange(price: Option<real>, change: Option<real>, pct: Option<real>): (r: Option<real>)
    ensures change.Some? ==> r == change
    ensures change.None? ==> (r.Some? <==> price.Some? && pct.Some?)
    ensures change.None? && r.Some? ==> r.value * 100.0 == price.value * pct.value
  {
    if change.None? && pct.Some? && price.Some? then Some(price.value * (pct.value / 100.0))
    else change
  }

  /** A derived change has the sign of the percentage for a positive price. */
  lemma DerivedChangeSign(price: real, pct: real)
    requires price > 0.0
    ensures var r := DerivePriceChange(Some(price), None, Some(pct)).value;
      (r > 0.0 <==> pct > 0.0) && (r < 0.0 <==> pct < 0.0)
  {
    var r := DerivePriceChange(Some(price), None, Some(pct)).value;
    ProductSign(pct, price, r * 100.0);
  }

  // ---------------------------------------------------------------------------------------
  // The stock record

  /** The provider fields the handler reads, each already resolved from its fallback chain. */
  datatype Quote = Quote(
    price: Option<real>,
    change: Option<real>,
    changePercent: Option<real>,
    longName: Option<string>,
    marketCap: Option<real>,
    trailingPE: Option<real>,
    beta: Option<real>)

  datatype StockData = StockData(
    symbol: string,
    companyName: Option<string>,
    price: Option<real>,
    priceChange: Option<real>,
    priceChangePercentage: Option<real>,
    marketCap: Option<MarketCap>,
    peRatio: Option<real>,
    beta: Option<real>,
    debtRatio: Option<real>)

  /** The record returned when the fetch fails: the symbol doubles as the company name. */
  function MinimalStockData(symbol: string): (d: StockData)
    ensures d.symbol == symbol && d.companyName == Some(symbol)
    ensures d.price.None? && d.peRatio.None? && d.beta.None? && d.debtRatio.None?
  {
    StockData(symbol, Some(symbol), None, None, None, None, None, None, None)
  }

  /** `fetchComprehensiveStockData`: a failed quote lookup (None) yields the minimal record. */
  function FetchStockData(symbol: string, quote: Option<Quote>, statements: seq<BalanceSheet>): (d: StockData)
    ensures d.symbol == symbol
    ensures quote.None? ==> d == MinimalStockData(symbol)
    ensures quote.Some? ==>
      && d.companyName == quote.value.longName
      && d.price == quote.value.price
      && d.priceChangePercentage == quote.value.changePercent
      && d.peRatio == quote.value.trailingPE
      && d.beta == quote.value.beta
      && d.priceChange == DerivePriceChange(quote.value.price, quote.value.change, quote.value.changePercent)
      && d.marketCap == NormalizeMarketCap(quote.value.marketCap)
      && d.debtRatio == DebtRatio(statements)
  {
    if quote.None? then MinimalStockData(symbol)
    else
      var q := quote.value;
      StockData(symbol, q.longName, q.price,
                DerivePriceChange(q.price, q.change, q.changePercent),
                q.changePercent, NormalizeMarketCap(q.marketCap), q.trailingPE, q.beta,
                DebtRatio(statements))
  }
}
