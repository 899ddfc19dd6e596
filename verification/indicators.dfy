/** The indicator engine of the technical agent: simple moving averages, RSI, MACD with its
    exponential moving averages, the trend classification and the ordered list of signal tags.

    Closing prices are reals; the handler's `toFixed` rounding is treated as the identity.
 */
module Indicators {
  import opened Values
  import opened Series

  const RsiPeriod: nat := 14
  const MacdFast: nat := 12
  const MacdSlow: nat := 26

  // ---------------------------------------------------------------------------------------
  // Simple moving average

  /** `sma(arr, n)`: the mean of the last n closes, undefined when there are fewer than n. */
  function Sma(arr: seq<real>, n: nat): (r: Option<real>)
    requires n >= 1
    ensures r.None? <==> |arr| < n
    ensures r.Some? ==> r.value * n as real == Sum(LastN(arr, n))
  {
    if |arr| < n then None else Some(Sum(LastN(arr, n)) / n as real)
  }

  /** A defined SMA lies between the smallest and largest close of its window. */
  lemma SmaWithinWindow(arr: seq<real>, n: nat, lo: real, hi: real)
    requires n >= 1 && n <= |arr|
    requires Within(LastN(arr, n), lo, hi)
    ensures Sma(arr, n).Some? && lo <= Sma(arr, n).value <= hi
  {
    SumBounds(LastN(arr, n), lo, hi);
  }

  // ---------------------------------------------------------------------------------------
  // Relative strength index

  /** The price change into day i. */
  function Delta(arr: seq<real>, i: int): real
    requires 1 <= i < |arr|
  {
    arr[i] - arr[i - 1]
  }

  /** Sum of the positive deltas into days lo .. hi-1. */
  function Gains(arr: seq<real>, lo: int, hi: int): (g: real)
    requires 1 <= lo <= hi <= |arr|
    ensures g >= 0.0
    decreases hi - lo
  {
    if lo == hi then 0.0
    else Gains(arr, lo, hi - 1) + (if Delta(arr, hi - 1) > 0.0 then Delta(arr, hi - 1) else 0.0)
  }

  /** Sum of the magnitudes of the non-positive deltas into days lo .. hi-1. */
  function Losses(arr: seq<real>, lo: int, hi: int): (l: real)
    requires 1 <= lo <= hi <= |arr|
    ensures l >= 0.0
    decreases hi - lo
  {
    if lo == hi then 0.0
    else Losses(arr, lo, hi - 1) + (if Delta(arr, hi - 1) > 0.0 then 0.0 else -Delta(arr, hi - 1))
  }

  lemma {:induction false} GainsZeroIff(arr: seq<real>, lo: int, hi: int)
    requires 1 <= lo <= hi <= |arr|
    ensures Gains(arr, lo, hi) == 0.0 <==> forall i :: lo <= i < hi ==> Delta(arr, i) <= 0.0
    decreases hi - lo
  {
    if lo < hi {
      GainsZeroIff(arr, lo, hi - 1);
    }
  }

  lemma {:induction false} LossesZeroIff(arr: seq<real>, lo: int, hi: int)
    requires 1 <= lo <= hi <= |arr|
    ensures Losses(arr, lo, hi) == 0.0 <==> forall i :: lo <= i < hi ==> Delta(arr, i) >= 0.0
    decreases hi - lo
  {
    if lo < hi {
      LossesZeroIff(arr, lo, hi - 1);
    }
  }

  /** `computeRSI(arr, n)`: undefined when there are fewer than n + 1 closes. */
  function Rsi(arr: seq<real>, n: nat): (r: Option<real>)
    requires n >= 1
    ensures r.None? <==> |arr| < n + 1
  {
    if |arr| < n + 1 then None
    else
      var avgGain := Gains(arr, |arr| - n, |arr|) / n as real;
      var avgLoss := Losses(arr, |arr| - n, |arr|) / n as real;
      if avgLoss == 0.0 then Some(100.0)
      else Some(100.0 - 100.0 / (1.0 + avgGain / avgLoss))
  }

  /** No delta in the RSI window of the last n days is negative. */
  predicate NoLossInWindow(arr: seq<real>, n: nat)
    requires n + 1 <= |arr|
  {
    forall i :: |arr| - n <= i < |arr| ==> Delta(arr, i) >= 0.0
  }

  /** No delta in the RSI window of the last n days is positive. */
  predicate NoGainInWindow(arr: seq<real>, n: nat)
    requires n + 1 <= |arr|
  {
    forall i :: |arr| - n <= i < |arr| ==> Delta(arr, i) <= 0.0
  }

  /** The RSI step of 100 - 100 / (1 + g / l) stays in [0, 100) and is 0 exactly when g is 0. */
  lemma RsiFormulaRange(g: real, l: real)
    requires g >= 0.0 && l > 0.0
    ensures 0.0 <= 100.0 - 100.0 / (1.0 + g / l) < 100.0
    ensures 100.0 - 100.0 / (1.0 + g / l) == 0.0 <==> g == 0.0
  {
    var rs := g / l;
    assert rs >= 0.0;
    var q := 100.0 / (1.0 + rs);
    assert q * (1.0 + rs) == 100.0;
    assert 0.0 < q <= 100.0;
    if g == 0.0 {
      assert rs == 0.0;
    } else {
      assert rs > 0.0;
      assert q < 100.0;
    }
  }

  /** RSI lies in [0, 100]; it is 100 exactly when no delta in the window is negative, and
      0 exactly when the window has a loss but no gain. */
  lemma RsiRange(arr: seq<real>, n: nat)
    requires n >= 1 && n + 1 <= |arr|
    ensures Rsi(arr, n).Some?
    ensures 0.0 <= Rsi(arr, n).value <= 100.0
    ensures Rsi(arr, n).value == 100.0 <==> NoLossInWindow(arr, n)
    ensures Rsi(arr, n).value == 0.0 <==> NoGainInWindow(arr, n) && !NoLossInWindow(arr, n)
  {
    var lo := |arr| - n;
    GainsZeroIff(arr, lo, |arr|);
    LossesZeroIff(arr, lo, |arr|);
    var g := Gains(arr, lo, |arr|) / n as real;
    var l := Losses(arr, lo, |arr|) / n as real;
    assert g >= 0.0 && l >= 0.0;
    assert l == 0.0 <==> Losses(arr, lo, |arr|) == 0.0;
    assert g == 0.0 <==> Gains(arr, lo, |arr|) == 0.0;
    if l != 0.0 {
      RsiFormulaRange(g, l);
    }
  }

  /** The handler's loop over the last n deltas computes the RSI above. */
  method ComputeRsi(arr: seq<real>, n: nat) returns (r: Option<real>)
    requires n >= 1
    ensures r == Rsi(arr, n)
  {
    if |arr| < n + 1 {
      return None;
    }
    var gains := 0.0;
    var losses := 0.0;
    var i := |arr| - n;
    while i < |arr|
      invariant |arr| - n <= i <= |arr|
      invariant gains == Gains(arr, |arr| - n, i)
      invariant losses == Losses(arr, |arr| - n, i)
    {
      var diff := arr[i] - arr[i - 1];
      if diff > 0.0 {
        gains := gains + diff;
      } else {
        losses := losses - diff;
      }
      i := i + 1;
    }
    var avgGain := gains / n as real;
    var avgLoss := losses / n as real;
    if avgLoss == 0.0 {
      return Some(100.0);
    }
    var rs := avgGain / avgLoss;
    r := Some(100.0 - 100.0 / (1.0 + rs));
  }

  // ---------------------------------------------------------------------------------------
  // Exponential moving average and MACD

  /** The smoothing factor k = 2 / (period + 1). */
  function Smoothing(period: nat): (k: real)
    requires period >= 1
    ensures 0.0 < k <= 1.0
  {
    2.0 / (period as real + 1.0)
  }

  /** One smoothing step of the handler's `ema`: `data[i] * k + emaValue * (1 - k)`. */
  function Blend(x: real, prev: real, k: real): real {
    x * k + prev * (1.0 - k)
  }

  /** The EMA accumulator after the first i data points, seeded with the first one. */
  function EmaPrefix(data: seq<real>, k: real, i: nat): real
    requires 1 <= i <= |data|
    decreases i
  {
    if i == 1 then data[0] else Blend(data[i - 1], EmaPrefix(data, k, i - 1), k)
  }

  /** `ema(data, period)` over the whole series. */
  function Ema(data: seq<real>, period: nat): real
    requires |data| >= 1 && period >= 1
  {
    EmaPrefix(data, Smoothing(period), |data|)
  }

  lemma NonNegProduct(a: real, b: real)
    requires a >= 0.0 && b >= 0.0
    ensures a * b >= 0.0
  {
  }

  /** How far a smoothing step moves from the previous accumulator and how far it stays
      from the new data point. */
  lemma BlendGaps(x: real, prev: real, k: real)
    ensures Blend(x, prev, k) - prev == k * (x - prev)
    ensures x - Blend(x, prev, k) == (1.0 - k) * (x - prev)
  {
  }

  lemma Sandwich(b: real, lo: real, hi: real, p: real, q: real)
    requires b - lo == p && hi - b == q && p >= 0.0 && q >= 0.0
    ensures lo <= b <= hi
  {
  }

  /** A smoothing step lands between the new data point and the previous accumulator. */
  lemma BlendBetween(x: real, prev: real, k: real)
    requires 0.0 <= k <= 1.0
    ensures x >= prev ==> prev <= Blend(x, prev, k) <= x
    ensures x < prev ==> x <= Blend(x, prev, k) <= prev
  {
    BlendGaps(x, prev, k);
    if x >= prev {
      NonNegProduct(k, x - prev);
      NonNegProduct(1.0 - k, x - prev);
      Sandwich(Blend(x, prev, k), prev, x, k * (x - prev), (1.0 - k) * (x - prev));
    } else {
      NonNegProduct(k, prev - x);
      NonNegProduct(1.0 - k, prev - x);
      Sandwich(Blend(x, prev, k), x, prev, (1.0 - k) * (prev - x), k * (prev - x));
    }
  }

  /** The EMA is a weighted average, so it never leaves the range of the data. */
  lemma {:induction false} EmaPrefixWithin(data: seq<real>, k: real, i: nat, lo: real, hi: real)
    requires 1 <= i <= |data| && 0.0 <= k <= 1.0
    requires Within(data, lo, hi)
    ensures lo <= EmaPrefix(data, k, i) <= hi
    decreases i
  {
    if i > 1 {
      EmaPrefixWithin(data, k, i - 1, lo, hi);
      BlendBetween(data[i - 1], EmaPrefix(data, k, i - 1), k);
    }
  }

  lemma EmaWithin(data: seq<real>, period: nat, lo: real, hi: real)
    requires |data| >= 1 && period >= 1
    requires Within(data, lo, hi)
    ensures lo <= Ema(data, period) <= hi
  {
    EmaPrefixWithin(data, Smoothing(period), |data|, lo, hi);
  }

  /** The handler's loop computes the EMA above. */
  method ComputeEma(data: seq<real>, period: nat) returns (e: real)
    requires |data| >= 1 && period >= 1
    ensures e == Ema(data, period)
  {
    var k := 2.0 / (period as real + 1.0);
    e := data[0];
    var i := 1;
    while i < |data|
      invariant 1 <= i <= |data|
      invariant e == EmaPrefix(data, k, i)
    {
      e := Blend(data[i], e, k);
      i := i + 1;
    }
  }

  datatype Macd = Macd(line: real, signal: real, histogram: real)

  /** `computeMACD(arr)`: fast minus slow EMA over the whole series; the signal line is
      approximated as a tenth of the MACD line. Undefined below 26 closes. */
  function ComputeMacd(arr: seq<real>): (r: Option<Macd>)
    ensures r.None? <==> |arr| < MacdSlow
    ensures r.Some? ==> r.value.histogram == 0.9 * r.value.line
    ensures r.Some? ==> r.value.line == Ema(arr, MacdFast) - Ema(arr, MacdSlow)
  {
    if |arr| < MacdSlow then None
    else
      var line := Ema(arr, MacdFast) - Ema(arr, MacdSlow);
      var signal := line * 0.1;
      Some(Macd(line, signal, line - signal))
  }

  // ---------------------------------------------------------------------------------------
  // Trend and signals

  datatype Trend = Bullish | Bearish | Neutral

  /** The tags the handler appends to `signals`, in the four groups it appends them in. */
  datatype Signal =
    | PriceAboveSma20 | Sma20AboveSma50 | PriceBelowSma20 | Sma20BelowSma50
    | RsiOverbought | RsiOversold
    | MacdBullishCrossover | MacdBearishCrossover
    | ThreeWhiteSoldiers | ThreeBlackCrows
  {
    function Text(): string {
      match this
      case PriceAboveSma20 => "Price above 20-day SMA"
      case Sma20AboveSma50 => "20-day SMA above 50-day SMA"
      case PriceBelowSma20 => "Price below 20-day SMA"
      case Sma20BelowSma50 => "20-day SMA below 50-day SMA"
      case RsiOverbought => "RSI overbought (>70)"
      case RsiOversold => "RSI oversold (<30)"
      case MacdBullishCrossover => "MACD bullish crossover"
      case MacdBearishCrossover => "MACD bearish crossover"
      case ThreeWhiteSoldiers => "Three white soldiers pattern"
      case ThreeBlackCrows => "Three black crows pattern"
    }

    /** 0: moving averages, 1: RSI, 2: MACD, 3: candlestick. */
    function Group(): nat {
      match this
      case PriceAboveSma20 | Sma20AboveSma50 | PriceBelowSma20 | Sma20BelowSma50 => 0
      case RsiOverbought | RsiOversold => 1
      case MacdBullishCrossover | MacdBearishCrossover => 2
      case ThreeWhiteSoldiers | ThreeBlackCrows => 3
    }
  }

  /** Tags appear group by group, and apart from the moving-average pair no group
      contributes more than one tag. */
  predicate GroupedSignals(s: seq<Signal>) {
    forall i, j :: 0 <= i < j < |s| ==>
      s[i].Group() < s[j].Group() || (s[i].Group() == 0 && s[j].Group() == 0)
  }

  /** Every tag of s belongs to group g. */
  predicate InGroup(s: seq<Signal>, g: nat) {
    forall i :: 0 <= i < |s| ==> s[i].Group() == g
  }

  datatype Step = Step(trend: Trend, signals: seq<Signal>)

  /** The moving-average rule: bullish when latest > SMA20 > SMA50, bearish when
      latest < SMA20 < SMA50, both averages being truthy. */
  function SmaStep(latest: real, sma20: Option<real>, sma50: Option<real>): (st: Step)
    ensures st.trend == Bullish <==>
      Known(sma20) && Known(sma50) && latest > sma20.value && sma20.value > sma50.value
    ensures st.trend == Bearish <==>
      Known(sma20) && Known(sma50) && latest < sma20.value && sma20.value < sma50.value
    ensures st.trend == Bullish ==> st.signals == [PriceAboveSma20, Sma20AboveSma50]
    ensures st.trend == Bearish ==> st.signals == [PriceBelowSma20, Sma20BelowSma50]
    ensures st.trend == Neutral ==> st.signals == []
    ensures InGroup(st.signals, 0)
  {
    if Known(sma20) && Known(sma50) && latest > sma20.value && sma20.value > sma50.value then
      Step(Bullish, [PriceAboveSma20, Sma20AboveSma50])
    else if Known(sma20) && Known(sma50) && latest < sma20.value && sma20.value < sma50.value then
      Step(Bearish, [PriceBelowSma20, Sma20BelowSma50])
    else
      Step(Neutral, [])
  }

  /** The RSI override, applied after the moving-average rule, for a truthy RSI only. */
  function RsiStep(trend: Trend, rsi: Option<real>): (st: Step)
    ensures st.trend == trend || st.trend == Neutral
    ensures Known(rsi) && rsi.value > 70.0 ==> st.trend != Bullish && st.signals == [RsiOverbought]
    ensures Known(rsi) && rsi.value < 30.0 ==> st.trend != Bearish && st.signals == [RsiOversold]
    ensures Known(rsi) && rsi.value > 70.0 ==> st.trend == (if trend == Bullish then Neutral else trend)
    ensures Known(rsi) && rsi.value < 30.0 ==> st.trend == (if trend == Bearish then Neutral else trend)
    ensures !(Known(rsi) && (rsi.value > 70.0 || rsi.value < 30.0)) ==> st == Step(trend, [])
    ensures InGroup(st.signals, 1) && |st.signals| <= 1
    ensures RsiOverbought in st.signals <==> Known(rsi) && rsi.value > 70.0
    ensures RsiOversold in st.signals <==> Known(rsi) && rsi.value < 30.0
  {
    if Known(rsi) && rsi.value > 70.0 then
      Step(if trend == Bullish then Neutral else trend, [RsiOverbought])
    else if Known(rsi) && rsi.value < 30.0 then
      Step(if trend == Bearish then Neutral else trend, [RsiOversold])
    else
      Step(trend, [])
  }

  /** The MACD crossover tag, if any. */
  function MacdSignals(macd: Option<Macd>): (s: seq<Signal>)
    ensures |s| <= 1 && InGroup(s, 2)
    ensures MacdBullishCrossover in s <==>
      macd.Some? && macd.value.histogram > 0.0 && macd.value.line > macd.value.signal
    ensures MacdBearishCrossover in s <==>
      macd.Some? && macd.value.histogram < 0.0 && macd.value.line < macd.value.signal
  {
    if macd.Some? && macd.value.histogram > 0.0 && macd.value.line > macd.value.signal then
      [MacdBullishCrossover]
    else if macd.Some? && macd.value.histogram < 0.0 && macd.value.line < macd.value.signal then
      [MacdBearishCrossover]
    else
      []
  }

  /** With the signal line at a tenth of the MACD line, the crossover tag follows the sign
      of the MACD line alone. */
  lemma MacdCrossoverFollowsLine(arr: seq<real>)
    requires |arr| >= MacdSlow
    ensures var line := Ema(arr, MacdFast) - Ema(arr, MacdSlow);
      && (MacdSignals(ComputeMacd(arr)) == [MacdBullishCrossover] <==> line > 0.0)
      && (MacdSignals(ComputeMacd(arr)) == [MacdBearishCrossover] <==> line < 0.0)
      && (MacdSignals(ComputeMacd(arr)) == [] <==> line == 0.0)
  {
  }

  /** A flat price series has a zero MACD line and never produces a crossover tag. */
  lemma FlatSeriesHasNoCrossover(arr: seq<real>, c: real)
    requires |arr| >= MacdSlow && Constant(arr, c)
    ensures ComputeMacd(arr).Some? && ComputeMacd(arr).value.line == 0.0
    ensures MacdSignals(ComputeMacd(arr)) == []
  {
    EmaWithin(arr, MacdFast, c, c);
    EmaWithin(arr, MacdSlow, c, c);
  }

  predicate RisingThree(closes: seq<real>)
    requires |closes| >= 3
  {
    var n := |closes|;
    closes[n - 1] > closes[n - 2] && closes[n - 2] > closes[n - 3]
  }

  predicate FallingThree(closes: seq<real>)
    requires |closes| >= 3
  {
    var n := |closes|;
    closes[n - 1] < closes[n - 2] && closes[n - 2] < closes[n - 3]
  }

  /** The candlestick heuristic over the last three closes. */
  function CandleSignals(closes: seq<real>): (s: seq<Signal>)
    ensures |s| <= 1 && InGroup(s, 3)
    ensures ThreeWhiteSoldiers in s <==> |closes| >= 3 && RisingThree(closes)
    ensures ThreeBlackCrows in s <==> |closes| >= 3 && FallingThree(closes)
  {
    if |closes| >= 3 && RisingThree(closes) then [ThreeWhiteSoldiers]
    else if |closes| >= 3 && FallingThree(closes) then [ThreeBlackCrows]
    else []
  }

  /** What the technical agent returns: nothing at all (`{}`) when the chart fetch failed or
      had no closes, a bare neutral trend for a symbol whose whole analysis failed, or the
      full indicator set. */
  datatype TechnicalData =
    | NoIndicators
    | TrendOnly(trend: Trend)
    | Indicators(
        latestClose: real,
        rsi: Option<real>,
        macd: Option<Macd>,
        sma20: Option<real>,
        sma50: Option<real>,
        sma200: Option<real>,
        trend: Trend,
        signals: seq<Signal>,
        support: Option<real>,
        resistance: Option<real>)

  /** `technicalData.trend`, absent for the empty result. */
  function TrendOf(t: TechnicalData): Option<Trend> {
    if t.NoIndicators? then None else Some(t.trend)
  }

  /** Four parts, one per group and at most one tag in each of the last three, concatenate
      to a grouped list whose tags are exactly those of the parts. */
  lemma GroupedParts(a: seq<Signal>, b: seq<Signal>, c: seq<Signal>, d: seq<Signal>)
    requires InGroup(a, 0)
    requires InGroup(b, 1) && |b| <= 1
    requires InGroup(c, 2) && |c| <= 1
    requires InGroup(d, 3) && |d| <= 1
    ensures GroupedSignals(a + b + c + d)
  {
    var s := a + b + c + d;
    forall i, j | 0 <= i < j < |s|
      ensures s[i].Group() < s[j].Group() || (s[i].Group() == 0 && s[j].Group() == 0)
    {
      assert s[i].Group() == PartOf(i, |a|, |b|, |c|);
      assert s[j].Group() == PartOf(j, |a|, |b|, |c|);
    }
  }

  /** Which of the four parts position i of their concatenation falls in. */
  function PartOf(i: nat, na: nat, nb: nat, nc: nat): nat {
    if i < na then 0 else if i < na + nb then 1 else if i < na + nb + nc then 2 else 3
  }

  /** A tag outside group g is in no list of group g. */
  lemma NotInOtherGroup(s: seq<Signal>, g: nat, t: Signal)
    requires InGroup(s, g) && t.Group() != g
    ensures t !in s
  {
    assert forall i :: 0 <= i < |s| ==> s[i].Group() == g && s[i] != t;
  }

  /** Trend and signals from the indicator values: the moving-average rule, then the RSI
      override, then the MACD crossover tag, then the candlestick tag. */
  function Classify(latest: real, sma20: Option<real>, sma50: Option<real>, rsi: Option<real>,
                    macd: Option<Macd>, closes: seq<real>): (st: Step)
    ensures st.trend == Bullish ==>
      && Known(sma20) && Known(sma50) && latest > sma20.value > sma50.value
      && !(Known(rsi) && rsi.value > 70.0)
    ensures st.trend == Bearish ==>
      && Known(sma20) && Known(sma50) && latest < sma20.value < sma50.value
      && !(Known(rsi) && rsi.value < 30.0)
    ensures st.trend == SmaStep(latest, sma20, sma50).trend || st.trend == Neutral
    ensures st.trend == Bullish <==>
      SmaStep(latest, sma20, sma50).trend == Bullish && !(Known(rsi) && rsi.value > 70.0)
    ensures st.trend == Bearish <==>
      SmaStep(latest, sma20, sma50).trend == Bearish && !(Known(rsi) && rsi.value < 30.0)
  {
    var bySma := SmaStep(latest, sma20, sma50);
    var byRsi := RsiStep(bySma.trend, rsi);
    Step(byRsi.trend, bySma.signals + byRsi.signals + MacdSignals(macd) + CandleSignals(closes))
  }

  /** Signal tags come group by group (moving averages, RSI, MACD, candlestick), with at
      most one RSI, one MACD and one candlestick tag. */
  lemma ClassifySignalsGrouped(latest: real, sma20: Option<real>, sma50: Option<real>,
                               rsi: Option<real>, macd: Option<Macd>, closes: seq<real>)
    ensures GroupedSignals(Classify(latest, sma20, sma50, rsi, macd, closes).signals)
  {
    var bySma := SmaStep(latest, sma20, sma50);
    var byRsi := RsiStep(bySma.trend, rsi);
    GroupedParts(bySma.signals, byRsi.signals, MacdSignals(macd), CandleSignals(closes));
  }

  /** The RSI tags appear exactly for a truthy RSI above 70 or below 30. */
  lemma ClassifyRsiTags(latest: real, sma20: Option<real>, sma50: Option<real>,
                        rsi: Option<real>, macd: Option<Macd>, closes: seq<real>)
    ensures var st := Classify(latest, sma20, sma50, rsi, macd, closes);
      && (RsiOverbought in st.signals <==> Known(rsi) && rsi.value > 70.0)
      && (RsiOversold in st.signals <==> Known(rsi) && rsi.value < 30.0)
  {
    var bySma := SmaStep(latest, sma20, sma50);
    var byRsi := RsiStep(bySma.trend, rsi);
    var macdTags := MacdSignals(macd);
    var candleTags := CandleSignals(closes);
    var signals := bySma.signals + byRsi.signals + macdTags + candleTags;
    forall t: Signal | t.Group() == 1
      ensures t in signals <==> t in byRsi.signals
    {
      NotInOtherGroup(bySma.signals, 0, t);
      NotInOtherGroup(macdTags, 2, t);
      NotInOtherGroup(candleTags, 3, t);
    }
    assert RsiOverbought.Group() == 1 && RsiOversold.Group() == 1;
  }

  /** The moving-average tags reach the final list exactly with the trend of the
      moving-average rule: both bullish tags for a bullish rule, both bearish tags for a
      bearish one. */
  lemma ClassifySmaTags(latest: real, sma20: Option<real>, sma50: Option<real>,
                        rsi: Option<real>, macd: Option<Macd>, closes: seq<real>)
    ensures var st := Classify(latest, sma20, sma50, rsi, macd, closes);
      && (PriceAboveSma20 in st.signals <==> SmaStep(latest, sma20, sma50).trend == Bullish)
      && (Sma20AboveSma50 in st.signals <==> SmaStep(latest, sma20, sma50).trend == Bullish)
      && (PriceBelowSma20 in st.signals <==> SmaStep(latest, sma20, sma50).trend == Bearish)
      && (Sma20BelowSma50 in st.signals <==> SmaStep(latest, sma20, sma50).trend == Bearish)
  {
    var bySma := SmaStep(latest, sma20, sma50);
    var byRsi := RsiStep(bySma.trend, rsi);
    var macdTags := MacdSignals(macd);
    var candleTags := CandleSignals(closes);
    var signals := bySma.signals + byRsi.signals + macdTags + candleTags;
    forall t: Signal | t.Group() == 0
      ensures t in signals <==> t in bySma.signals
    {
      NotInOtherGroup(byRsi.signals, 1, t);
      NotInOtherGroup(macdTags, 2, t);
      NotInOtherGroup(candleTags, 3, t);
    }
    assert PriceAboveSma20.Group() == 0 && Sma20AboveSma50.Group() == 0;
    assert PriceBelowSma20.Group() == 0 && Sma20BelowSma50.Group() == 0;
  }

  /** The MACD crossover tags reach the final list exactly under the crossover conditions. */
  lemma ClassifyMacdTags(latest: real, sma20: Option<real>, sma50: Option<real>,
                         rsi: Option<real>, macd: Option<Macd>, closes: seq<real>)
    ensures var st := Classify(latest, sma20, sma50, rsi, macd, closes);
      && (MacdBullishCrossover in st.signals <==>
            macd.Some? && macd.value.histogram > 0.0 && macd.value.line > macd.value.signal)
      && (MacdBearishCrossover in st.signals <==>
            macd.Some? && macd.value.histogram < 0.0 && macd.value.line < macd.value.signal)
  {
    var bySma := SmaStep(latest, sma20, sma50);
    var byRsi := RsiStep(bySma.trend, rsi);
    var macdTags := MacdSignals(macd);
    var candleTags := CandleSignals(closes);
    var signals := bySma.signals + byRsi.signals + macdTags + candleTags;
    forall t: Signal | t.Group() == 2
      ensures t in signals <==> t in macdTags
    {
      NotInOtherGroup(bySma.signals, 0, t);
      NotInOtherGroup(byRsi.signals, 1, t);
      NotInOtherGroup(candleTags, 3, t);
    }
    assert MacdBullishCrossover.Group() == 2 && MacdBearishCrossover.Group() == 2;
  }

  /** "Three white soldiers" appears exactly when the last three closes strictly rise, and
      "Three black crows" exactly when they strictly fall. */
  lemma ClassifyCandleTags(latest: real, sma20: Option<real>, sma50: Option<real>,
                           rsi: Option<real>, macd: Option<Macd>, closes: seq<real>)
    ensures var st := Classify(latest, sma20, sma50, rsi, macd, closes);
      && (ThreeWhiteSoldiers in st.signals <==> |closes| >= 3 && RisingThree(closes))
      && (ThreeBlackCrows in st.signals <==> |closes| >= 3 && FallingThree(closes))
  {
    var bySma := SmaStep(latest, sma20, sma50);
    var byRsi := RsiStep(bySma.trend, rsi);
    var macdTags := MacdSignals(macd);
    var candleTags := CandleSignals(closes);
    var signals := bySma.signals + byRsi.signals + macdTags + candleTags;
    forall t: Signal | t.Group() == 3
      ensures t in signals <==> t in candleTags
    {
      NotInOtherGroup(bySma.signals, 0, t);
      NotInOtherGroup(byRsi.signals, 1, t);
      NotInOtherGroup(macdTags, 2, t);
    }
    assert ThreeWhiteSoldiers.Group() == 3 && ThreeBlackCrows.Group() == 3;
  }

  /** The indicator engine on a non-empty series of closes. */
  function Analyze(closes: seq<real>): (t: TechnicalData)
    requires |closes| >= 1
    ensures t.Indicators?
    ensures t.latestClose == closes[|closes| - 1]
    ensures t.rsi == Rsi(closes, RsiPeriod) && t.macd == ComputeMacd(closes)
    ensures t.sma20 == Sma(closes, 20) && t.sma50 == Sma(closes, 50)
    ensures t.sma200 == Sma(closes, 200)
    ensures Step(t.trend, t.signals) == Classify(t.latestClose, t.sma20, t.sma50, t.rsi, t.macd, closes)
    ensures t.support == OrNull(t.sma50) && t.resistance == OrNull(t.sma20)
  {
    var latest := closes[|closes| - 1];
    var rsi := Rsi(closes, RsiPeriod);
    var macd := ComputeMacd(closes);
    var sma20 := Sma(closes, 20);
    var sma50 := Sma(closes, 50);
    var st := Classify(latest, sma20, sma50, rsi, macd, closes);
    Indicators(latest, rsi, macd, sma20, sma50, Sma(closes, 200), st.trend, st.signals,
               OrNull(sma50), OrNull(sma20))
  }

  /** `performTechnicalAnalysis`: the chart is an input (None when the fetch failed); a
      failed fetch or a chart without numeric closes yields the empty result. */
  function PerformTechnicalAnalysis(chart: Option<seq<Option<real>>>): (t: TechnicalData)
    ensures t.NoIndicators? <==> chart.None? || |PresentCloses(chart.value)| == 0
    ensures !t.NoIndicators? ==> t == Analyze(PresentCloses(chart.value))
  {
    if chart.None? then NoIndicators
    else
      var closes := PresentCloses(chart.value);
      if |closes| == 0 then NoIndicators else Analyze(closes)
  }

  /** Twenty-one closes rising by one from 100: the RSI is 100 and flags overbought, but the
      trend stays neutral because the 50-day SMA is not yet defined; the last three closes
      make three white soldiers, and there are too few closes for MACD. */
  lemma RisingTwentyOneCloses()
    ensures var closes := seq(21, i => 100.0 + i as real);
      var t := Analyze(closes);
      && t.rsi == Some(100.0)
      && t.sma20.Some? && t.sma50.None? && t.macd.None?
      && t.trend == Neutral
      && t.signals == [RsiOverbought, ThreeWhiteSoldiers]
  {
    var closes := seq(21, i => 100.0 + i as real);
    assert NoLossInWindow(closes, RsiPeriod) by {
      forall i | |closes| - RsiPeriod <= i < |closes| ensures Delta(closes, i) >= 0.0 {
        assert Delta(closes, i) == 1.0;
      }
    }
    RsiRange(closes, RsiPeriod);
  }
}
