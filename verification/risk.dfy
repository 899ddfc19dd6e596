/** The risk agent's statistics: simple daily returns, population variance, the annualised
    volatility and downside risk (semi-deviation over the negative returns), and the
    heuristic probability bands derived from the volatility.

    `Math.sqrt` is a parameter constrained by `IsSquareRoot`; `toFixed` rounding is the
    identity. The price-series fetch and the scenario text come in as inputs.
 */
module Risk {
  import opened Values
  import opened Series

  const TradingDays: real := 252.0

  /** A square-root function on the non-negative reals. */
  ghost predicate IsSquareRoot(sqrt: real -> real) {
    forall x :: 0.0 <= x ==> 0.0 <= sqrt(x) && sqrt(x) * sqrt(x) == x
  }

  lemma NegativeProduct(a: real, b: real, p: real)
    requires a < 0.0 && b < 0.0 && p == a * b
    ensures p > 0.0
  {
  }

  /** The sign of a square `p == z * z`: never negative, and zero only for a zero base. */
  lemma SquareSign(z: real, p: real)
    requires p == z * z
    ensures p >= 0.0
    ensures p == 0.0 <==> z == 0.0
  {
    if z > 0.0 {
      PositiveProduct(z, z, p);
    } else if z < 0.0 {
      NegativeProduct(z, z, p);
    }
  }

  lemma SquareRootFacts(sqrt: real -> real, x: real)
    requires IsSquareRoot(sqrt) && 0.0 <= x
    ensures 0.0 <= sqrt(x)
    ensures sqrt(x) == 0.0 <==> x == 0.0
  {
    SquareSign(sqrt(x), x);
  }

  // ---------------------------------------------------------------------------------------
  // Returns

  /** Every close that divides a return (all but the last) is non-zero. */
  predicate NonZeroDivisors(closes: seq<real>) {
    forall i :: 0 <= i < |closes| - 1 ==> closes[i] != 0.0
  }

  /** r[i] = (close[i+1] - close[i]) / close[i]. */
  function DailyReturns(closes: seq<real>): (r: seq<real>)
    requires NonZeroDivisors(closes)
    ensures |closes| >= 1 ==> |r| == |closes| - 1
    ensures |closes| == 0 ==> |r| == 0
    ensures forall i :: 0 <= i < |r| ==> r[i] * closes[i] == closes[i + 1] - closes[i]
  {
    if |closes| <= 1 then []
    else seq(|closes| - 1, i requires 0 <= i < |closes| - 1 => (closes[i + 1] - closes[i]) / closes[i])
  }

  /** With positive prices a return is negative exactly when the price fell that day. */
  lemma NegativeReturnIffFall(closes: seq<real>, i: nat)
    requires forall j :: 0 <= j < |closes| ==> closes[j] > 0.0
    requires i + 1 < |closes|
    ensures DailyReturns(closes)[i] < 0.0 <==> closes[i + 1] < closes[i]
  {
    ReturnAt(closes, i);
    ReturnSign(DailyReturns(closes)[i], closes[i], closes[i + 1]);
  }

  lemma ReturnAt(closes: seq<real>, i: nat)
    requires forall j :: 0 <= j < |closes| ==> closes[j] > 0.0
    requires i + 1 < |closes|
    ensures NonZeroDivisors(closes) && i < |DailyReturns(closes)|
    ensures DailyReturns(closes)[i] * closes[i] == closes[i + 1] - closes[i]
  {
  }

  /** The sign of one return `r` with `r * prev == next - prev`, for a positive `prev`. */
  lemma ReturnSign(r: real, prev: real, next: real)
    requires prev > 0.0 && r * prev == next - prev
    ensures r < 0.0 <==> next < prev
  {
    ProductSign(r, prev, next - prev);
  }

  // ---------------------------------------------------------------------------------------
  // Mean and population variance

  function Mean(s: seq<real>): real
    requires |s| > 0
  {
    Sum(s) / |s| as real
  }

  /** `Math.pow(b - mean, 2)` for every element. */
  function SquaredDeviations(s: seq<real>, m: real): (d: seq<real>)
    ensures |d| == |s|
    ensures forall i :: 0 <= i < |s| ==> d[i] >= 0.0
    ensures forall i :: 0 <= i < |s| ==> (d[i] == 0.0 <==> s[i] == m)
  {
    var d := seq(|s|, i requires 0 <= i < |s| => (s[i] - m) * (s[i] - m));
    assert forall i :: 0 <= i < |s| ==> d[i] >= 0.0 && (d[i] == 0.0 <==> s[i] == m) by {
      forall i | 0 <= i < |s| ensures d[i] >= 0.0 && (d[i] == 0.0 <==> s[i] == m) {
        SquareSign(s[i] - m, d[i]);
      }
    }
    d
  }

  /** The population variance: the mean squared deviation from the mean. */
  function Variance(s: seq<real>): (v: real)
    requires |s| > 0
    ensures v >= 0.0
  {
    SumNonNegative(SquaredDeviations(s, Mean(s)));
    Sum(SquaredDeviations(s, Mean(s))) / |s| as real
  }

  /** The variance is zero exactly when every element is the same. */
  lemma ZeroQuotient(a: real, n: real)
    requires n > 0.0
    ensures a / n == 0.0 <==> a == 0.0
  {
  }

  lemma CancelQuotient(a: real, n: real, c: real)
    requires n > 0.0 && a == n * c
    ensures a / n == c
  {
  }

  /** The mean of a constant series is that constant. */
  lemma MeanConstant(s: seq<real>, c: real)
    requires |s| > 0 && Constant(s, c)
    ensures Mean(s) == c
  {
    SumConstant(s, c);
    CancelQuotient(Sum(s), |s| as real, c);
  }

  lemma VarianceZeroIffConstant(s: seq<real>)
    requires |s| > 0
    ensures Variance(s) == 0.0 <==> Constant(s, s[0])
  {
    var m := Mean(s);
    var d := SquaredDeviations(s, m);
    SumZeroIffAllZero(d);
    ZeroQuotient(Sum(d), |s| as real);
    if Constant(s, s[0]) {
      MeanConstant(s, s[0]);
      assert forall i :: 0 <= i < |s| ==> d[i] == 0.0;
    } else {
      var i :| 0 <= i < |s| && s[i] != s[0];
      assert s[i] != m || s[0] != m;
      assert d[i] != 0.0 || d[0] != 0.0;
    }
  }

  /** The negative returns, in order: `returns.filter(r => r < 0)`. */
  function Negatives(s: seq<real>): (n: seq<real>)
    ensures |n| <= |s|
    ensures forall i :: 0 <= i < |n| ==> n[i] < 0.0
    ensures |n| == 0 <==> forall i :: 0 <= i < |s| ==> s[i] >= 0.0
    ensures forall x :: x in s && x < 0.0 ==> x in n
    ensures forall x :: x in n ==> x in s
    decreases |s|
  {
    if |s| == 0 then []
    else
      var rest := Negatives(s[1..]);
      assert forall i :: 1 <= i < |s| ==> s[i] == s[1..][i - 1];
      if s[0] < 0.0 then [s[0]] + rest else rest
  }

  /** The filter works return by return, keeping every negative one (repeats included) in
      order. */
  lemma NegativesOfOne(x: real)
    ensures x < 0.0 ==> Negatives([x]) == [x]
    ensures x >= 0.0 ==> Negatives([x]) == []
  {
    assert [x][1..] == [];
  }

  lemma {:induction false} NegativesAppend(s: seq<real>, t: seq<real>)
    ensures Negatives(s + t) == Negatives(s) + Negatives(t)
    decreases |s|
  {
    if |s| > 0 {
      assert (s + t)[1..] == s[1..] + t;
      NegativesAppend(s[1..], t);
    } else {
      assert s + t == t;
    }
  }

  // ---------------------------------------------------------------------------------------
  // Annualised figures and bands

  /** stdev * sqrt(252) * 100, an annualised percentage. */
  function Annualized(variance: real, sqrt: real -> real): real {
    sqrt(variance) * sqrt(TradingDays) * 100.0
  }

  lemma AnnualizedSign(variance: real, sqrt: real -> real)
    requires IsSquareRoot(sqrt) && variance >= 0.0
    ensures Annualized(variance, sqrt) >= 0.0
    ensures Annualized(variance, sqrt) == 0.0 <==> variance == 0.0
  {
    SquareRootFacts(sqrt, variance);
    SquareRootFacts(sqrt, TradingDays);
    var a := sqrt(variance);
    var b := sqrt(TradingDays);
    if a > 0.0 {
      PositiveProduct(a, b, a * b);
    }
  }

  lemma ScaledSquare(a: real, b: real, va: real, vb: real)
    requires a * a == va && b * b == vb
    ensures (a * b * 100.0) * (a * b * 100.0) == va * vb * 10000.0
  {
    assert (a * b * 100.0) * (a * b * 100.0) == (a * a) * (b * b) * 10000.0;
  }

  /** The annualised figure squared is the variance scaled by 252 trading days and by
      100 squared for the percentage. */
  lemma AnnualizedSquare(variance: real, sqrt: real -> real)
    requires IsSquareRoot(sqrt) && variance >= 0.0
    ensures Annualized(variance, sqrt) * Annualized(variance, sqrt) == variance * 2520000.0
  {
    ScaledSquare(sqrt(variance), sqrt(TradingDays), variance, TradingDays);
  }

  datatype Bands = Bands(gain: Option<real>, loss: Option<real>)

  /** probabilityGain = max(0, 50 - v/2), probabilityLoss = min(100, 50 + v/2), both null
      for a falsy volatility. */
  function ProbabilityBands(volatility: Option<real>): (b: Bands)
    ensures b.gain.Some? <==> Known(volatility)
    ensures b.loss.Some? <==> Known(volatility)
  {
    if Known(volatility) then
      Bands(Some(Max(0.0, 50.0 - volatility.value / 2.0)),
            Some(Min(100.0, 50.0 + volatility.value / 2.0)))
    else
      Bands(None, None)
  }

  /** For any positive volatility both bands lie in [0, 100] and add up to 100; a zero
      volatility is falsy and gives no bands (`KnownBands`). */
  lemma BandsComplement(v: real)
    requires v > 0.0
    ensures var b := ProbabilityBands(Some(v));
      && b.gain.Some? && b.loss.Some?
      && 0.0 <= b.gain.value <= 100.0
      && 0.0 <= b.loss.value <= 100.0
      && b.gain.value + b.loss.value == 100.0
  {
  }

  lemma KnownBands(v: Option<real>)
    requires v.Some? ==> v.value >= 0.0
    ensures Known(v) ==>
      var b := ProbabilityBands(v);
      && 0.0 <= b.gain.value <= 100.0
      && 0.0 <= b.loss.value <= 100.0
      && b.gain.value + b.loss.value == 100.0
  {
    if Known(v) {
      BandsComplement(v.value);
    }
  }

  // ---------------------------------------------------------------------------------------
  // The risk agent

  datatype RiskProfile = RiskProfile(
    volatility: Option<real>,
    beta: Option<real>,
    downsideRisk: Option<real>,
    probabilityGain: Option<real>,
    probabilityLoss: Option<real>,
    scenarioAnalysis: string)

  const RiskUnavailable: string := "Risk assessment unavailable"

  /** The raw annualised volatility, when there are at least two closes. */
  function RawVolatility(closes: seq<real>, sqrt: real -> real): Option<real>
    requires NonZeroDivisors(closes)
  {
    if |closes| > 1 then Some(Annualized(Variance(DailyReturns(closes)), sqrt)) else None
  }

  /** The raw downside risk, when at least one return is negative. */
  function RawDownside(closes: seq<real>, sqrt: real -> real): Option<real>
    requires NonZeroDivisors(closes)
  {
    var negatives := Negatives(DailyReturns(closes));
    if |closes| > 1 && |negatives| > 0 then Some(Annualized(Variance(negatives), sqrt)) else None
  }

  /** `assessRisk`. The chart (None when the fetch failed) and the scenario text (None when
      the text generation failed) are inputs; either failure yields the all-null profile. */
  function AssessRisk(chart: Option<seq<Option<real>>>, scenario: Option<string>,
                      beta: Option<real>, sqrt: real -> real): (r: RiskProfile)
    requires IsSquareRoot(sqrt)
    ensures r.beta == OrNull(beta)
    ensures chart.None? || scenario.None? ==>
      r == RiskProfile(None, OrNull(beta), None, None, None, RiskUnavailable)
    ensures r.volatility.Some? ==> r.volatility.value > 0.0
    ensures r.downsideRisk.Some? ==> r.downsideRisk.value > 0.0
    ensures r.probabilityGain.Some? <==> r.volatility.Some?
    ensures r.probabilityLoss.Some? <==> r.volatility.Some?
    ensures r.volatility.Some? ==>
      && 0.0 <= r.probabilityGain.value <= 100.0
      && 0.0 <= r.probabilityLoss.value <= 100.0
      && r.probabilityGain.value + r.probabilityLoss.value == 100.0
  {
    if chart.None? || scenario.None? then
      RiskProfile(None, OrNull(beta), None, None, None, RiskUnavailable)
    else
      var closes := PresentCloses(chart.value);
      if !NonZeroDivisors(closes) then
        RiskProfile(None, OrNull(beta), None, None, None, scenario.value)
      else
        var volatility := RawVolatility(closes, sqrt);
        var downside := RawDownside(closes, sqrt);
        VolatilityNonNegative(closes, sqrt);
        DownsideNonNegative(closes, sqrt);
        var bands := ProbabilityBands(volatility);
        KnownBands(volatility);
        RiskProfile(OrNull(volatility), OrNull(beta), OrNull(downside),
                    bands.gain, bands.loss, scenario.value)
  }

  /** The raw volatility exists from two closes on and is non-negative. */
  lemma VolatilityNonNegative(closes: seq<real>, sqrt: real -> real)
    requires IsSquareRoot(sqrt) && NonZeroDivisors(closes)
    ensures RawVolatility(closes, sqrt).Some? <==> |closes| > 1
    ensures RawVolatility(closes, sqrt).Some? ==> RawVolatility(closes, sqrt).value >= 0.0
  {
    if |closes| > 1 {
      AnnualizedSign(Variance(DailyReturns(closes)), sqrt);
    }
  }

  /** The raw downside risk exists when some daily return is negative and is non-negative. */
  lemma DownsideNonNegative(closes: seq<real>, sqrt: real -> real)
    requires IsSquareRoot(sqrt) && NonZeroDivisors(closes)
    ensures RawDownside(closes, sqrt).Some? <==>
      (|closes| > 1 && |Negatives(DailyReturns(closes))| > 0)
    ensures RawDownside(closes, sqrt).Some? ==> RawDownside(closes, sqrt).value >= 0.0
  {
    var negatives := Negatives(DailyReturns(closes));
    if |closes| > 1 && |negatives| > 0 {
      AnnualizedSign(Variance(negatives), sqrt);
    }
  }

  /** Volatility is reported exactly when there are two or more closes whose daily returns
      are not all equal; identical returns give a volatility of 0, which reads as absent. */
  lemma VolatilityReportedIff(quotes: seq<Option<real>>, scenario: string, beta: Option<real>,
                              sqrt: real -> real)
    requires IsSquareRoot(sqrt)
    ensures var closes := PresentCloses(quotes);
      var r := AssessRisk(Some(quotes), Some(scenario), beta, sqrt);
      r.volatility.Some? <==>
        (NonZeroDivisors(closes) && |closes| > 1
         && !Constant(DailyReturns(closes), DailyReturns(closes)[0]))
  {
    var closes := PresentCloses(quotes);
    if NonZeroDivisors(closes) && |closes| > 1 {
      var daily := DailyReturns(closes);
      VarianceZeroIffConstant(daily);
      AnnualizedSign(Variance(daily), sqrt);
    }
  }

  /** Downside risk is reported exactly when there are two or more closes and some daily
      return is negative, with the negative returns not all equal; identical negative
      returns give a semi-deviation of 0, which reads as absent. */
  lemma DownsideReportedIff(quotes: seq<Option<real>>, scenario: string, beta: Option<real>,
                            sqrt: real -> real)
    requires IsSquareRoot(sqrt)
    ensures var closes := PresentCloses(quotes);
      var r := AssessRisk(Some(quotes), Some(scenario), beta, sqrt);
      r.downsideRisk.Some? <==>
        (NonZeroDivisors(closes) && |closes| > 1 && |Negatives(DailyReturns(closes))| > 0
         && !Constant(Negatives(DailyReturns(closes)), Negatives(DailyReturns(closes))[0]))
  {
    var closes := PresentCloses(quotes);
    if NonZeroDivisors(closes) && |closes| > 1 && |Negatives(DailyReturns(closes))| > 0 {
      var negatives := Negatives(DailyReturns(closes));
      VarianceZeroIffConstant(negatives);
      AnnualizedSign(Variance(negatives), sqrt);
    }
  }

  /** A reported volatility is the annualised standard deviation of the daily returns (see
      `AnnualizedSquare`), and a reported downside risk that of the negative daily returns. */
  lemma ReportedFiguresAreDeviations(quotes: seq<Option<real>>, scenario: string,
                                     beta: Option<real>, sqrt: real -> real)
    requires IsSquareRoot(sqrt)
    ensures var closes := PresentCloses(quotes);
      var r := AssessRisk(Some(quotes), Some(scenario), beta, sqrt);
      r.volatility.Some? ==>
        (NonZeroDivisors(closes) && |closes| > 1 &&
         r.volatility.value == Annualized(Variance(DailyReturns(closes)), sqrt))
    ensures var closes := PresentCloses(quotes);
      var r := AssessRisk(Some(quotes), Some(scenario), beta, sqrt);
      r.downsideRisk.Some? ==>
        (NonZeroDivisors(closes) && |Negatives(DailyReturns(closes))| > 0 &&
         r.downsideRisk.value == Annualized(Variance(Negatives(DailyReturns(closes))), sqrt))
  {
    var closes := PresentCloses(quotes);
    if NonZeroDivisors(closes) {
      VolatilityNonNegative(closes, sqrt);
      DownsideNonNegative(closes, sqrt);
    }
  }

  /** Without a losing day there is no downside risk. */
  lemma NoDownsideWithoutLosses(quotes: seq<Option<real>>, scenario: string, beta: Option<real>,
                                sqrt: real -> real)
    requires IsSquareRoot(sqrt)
    requires var closes := PresentCloses(quotes);
      NonZeroDivisors(closes) &&
      forall i :: 0 <= i < |DailyReturns(closes)| ==> DailyReturns(closes)[i] >= 0.0
    ensures AssessRisk(Some(quotes), Some(scenario), beta, sqrt).downsideRisk.None?
  {
  }

  /** The daily returns of a flat, non-zero series are all zero. */
  lemma FlatReturns(closes: seq<real>, c: real)
    requires c != 0.0 && Constant(closes, c)
    ensures NonZeroDivisors(closes)
    ensures Constant(DailyReturns(closes), 0.0)
  {
    var daily := DailyReturns(closes);
    forall i | 0 <= i < |daily| ensures daily[i] == 0.0 {
      assert closes[i + 1] - closes[i] == 0.0;
      assert daily[i] == 0.0 / c;
    }
  }

  /** A flat price series reports neither volatility, downside risk nor probability bands. */
  lemma FlatSeriesHasNoBands(quotes: seq<Option<real>>, scenario: string, beta: Option<real>,
                             sqrt: real -> real, c: real)
    requires IsSquareRoot(sqrt) && c != 0.0
    requires Constant(PresentCloses(quotes), c)
    ensures var r := AssessRisk(Some(quotes), Some(scenario), beta, sqrt);
      r.volatility.None? && r.probabilityGain.None? && r.probabilityLoss.None?
      && r.downsideRisk.None?
  {
    var closes := PresentCloses(quotes);
    FlatReturns(closes, c);
    if |closes| > 1 {
      var daily := DailyReturns(closes);
      assert Constant(daily, daily[0]);
      VarianceZeroIffConstant(daily);
      AnnualizedSign(Variance(daily), sqrt);
      assert Negatives(daily) == [];
    }
  }
}
