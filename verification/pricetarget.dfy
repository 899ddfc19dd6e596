/** The price-target heuristic: the current price scaled by an action factor, a trend factor
    and a valuation factor. Rounding to two decimals is not modelled. */
module PriceTarget {
  import opened Values
  import opened Indicators

  /** The P/E the heuristic treats as the market average. */
  const AveragePE: real := 20.0

  datatype Target = NotAvailable | Target(price: real)

  /** The three factors, each stated as a table of its own. */
  function ActionFactor(action: string): (f: real)
    ensures action == "Buy" ==> f == 1.2
    ensures action == "Sell" ==> f == 0.8
    ensures action != "Buy" && action != "Sell" ==> f == 1.05
  {
    if action == "Buy" then 1.2 else if action == "Sell" then 0.8 else 1.05
  }

  function TrendFactor(trend: Option<Trend>): (f: real)
    ensures trend == Some(Bullish) ==> f == 1.1
    ensures trend == Some(Bearish) ==> f == 0.9
    ensures trend != Some(Bullish) && trend != Some(Bearish) ==> f == 1.0
  {
    if trend == Some(Bullish) then 1.1 else if trend == Some(Bearish) then 0.9 else 1.0
  }

  /** Undervalued below 0.8 times the average P/E (16), overvalued above 1.5 times it (30);
      a missing or zero P/E leaves the target alone. */
  function ValuationFactor(pe: Option<real>): (f: real)
    ensures Known(pe) && pe.value < 16.0 ==> f == 1.15
    ensures Known(pe) && pe.value > 30.0 ==> f == 0.85
    ensures !Known(pe) || (16.0 <= pe.value <= 30.0) ==> f == 1.0
  {
    if Known(pe) then
      if pe.value < AveragePE * 0.8 then 1.15
      else if pe.value > AveragePE * 1.5 then 0.85
      else 1.0
    else 1.0
  }

  /** `generatePriceTarget`, step by step as the handler adjusts its running target. */
  function GeneratePriceTarget(price: Option<real>, trend: Option<Trend>, pe: Option<real>,
                               action: string): (t: Target)
    ensures t.NotAvailable? <==> !Known(price)
  {
    if !Known(price) then NotAvailable
    else
      var current := price.value;
      var byAction :=
        if action == "Buy" then current * 1.2
        else if action == "Sell" then current * 0.8
        else current * 1.05;
      var byTrend :=
        if trend == Some(Bullish) then byAction * 1.1
        else if trend == Some(Bearish) then byAction * 0.9
        else byAction;
      var byValuation :=
        if Known(pe) then
          if pe.value < AveragePE * 0.8 then byTrend * 1.15
          else if pe.value > AveragePE * 1.5 then byTrend * 0.85
          else byTrend
        else byTrend;
      Target(byValuation)
  }

  /** The target is the price times the three independent factors. */
  lemma TargetIsProductOfFactors(price: real, trend: Option<Trend>, pe: Option<real>, action: string)
    requires price != 0.0
    ensures GeneratePriceTarget(Some(price), trend, pe, action)
      == Target(price * ActionFactor(action) * TrendFactor(trend) * ValuationFactor(pe))
  {
  }

  /** The combined factor lies between 0.8 * 0.9 * 0.85 and 1.2 * 1.1 * 1.15, so a positive
      price keeps a positive target no more than about 52% away. */
  lemma TargetBounds(price: real, trend: Option<Trend>, pe: Option<real>, action: string)
    requires price > 0.0
    ensures var t := GeneratePriceTarget(Some(price), trend, pe, action);
      t.Target? && price * 0.612 <= t.price <= price * 1.518
  {
    TargetIsProductOfFactors(price, trend, pe, action);
    var a := ActionFactor(action);
    var b := TrendFactor(trend);
    var c := ValuationFactor(pe);
    FactorProductBounds(a, b, c);
    ScaledBounds(price, a * b * c);
  }

  lemma FactorProductBounds(a: real, b: real, c: real)
    requires a == 1.2 || a == 0.8 || a == 1.05
    requires b == 1.1 || b == 0.9 || b == 1.0
    requires c == 1.15 || c == 0.85 || c == 1.0
    ensures 0.612 <= a * b * c <= 1.518
  {
  }

  lemma ScaledBounds(price: real, f: real)
    requires price > 0.0 && 0.612 <= f <= 1.518
    ensures price * 0.612 <= price * f <= price * 1.518
  {
    ProductSign(f - 0.612, price, price * f - price * 0.612);
    ProductSign(1.518 - f, price, price * 1.518 - price * f);
  }

  /** A buy on a bullish chart with a P/E of 15 at a price of 100 targets 151.80. */
  lemma BuyBullishUndervalued()
    ensures GeneratePriceTarget(Some(100.0), Some(Bullish), Some(15.0), "Buy") == Target(151.8)
  {
  }

  /** The target strictly rises as the action strengthens from Sell through Hold to Buy. */
  lemma ActionOrdering(price: real, trend: Option<Trend>, pe: Option<real>)
    requires price > 0.0
    ensures var sell := GeneratePriceTarget(Some(price), trend, pe, "Sell").price;
      var hold := GeneratePriceTarget(Some(price), trend, pe, "Hold").price;
      var buy := GeneratePriceTarget(Some(price), trend, pe, "Buy").price;
      sell < hold < buy
  {
    TargetIsProductOfFactors(price, trend, pe, "Sell");
    TargetIsProductOfFactors(price, trend, pe, "Hold");
    TargetIsProductOfFactors(price, trend, pe, "Buy");
    var k := TrendFactor(trend) * ValuationFactor(pe);
    PositiveProduct(price, k, price * k);
    assert TrendFactor(trend) > 0.0 && ValuationFactor(pe) > 0.0;
    PositiveProduct(TrendFactor(trend), ValuationFactor(pe), k);
  }
}
