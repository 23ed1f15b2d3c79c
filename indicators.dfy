/** The technical-indicator library of utils_indicators.py: frame validation, rolling
    means, RSI, the MACD histogram built on the `adjust=False` EMA recurrence, Bollinger
    bands and momentum, and `add_technical_indicators`, which assigns them to a DataFrame
    in place. The `adjust=True` EMA and the epsilon-free RSI used by the enhanced
    predictor live here too, so that every indicator is defined once. */
module Indicators {
  import opened Series
  import opened Frames

  // INDICATOR_CONFIG (config.py)
  const SmaPeriods: seq<nat> := [5, 20, 60]
  const RsiPeriod: nat := 14
  const MacdFast: nat := 12
  const MacdSlow: nat := 26
  const MacdSignalSpan: nat := 9
  const BbPeriod: nat := 20
  const BbStd: real := 2.0
  const MomentumLagDays: nat := 5

  // ---------------------------------------------------------------- validation

  /** What `validate_dataframe` looks at: the column names and the number of rows. */
  datatype Shape = Shape(columns: set<string>, rows: nat)

  /** `True`, or the `ValueError` raised. */
  datatype Validation = Accepted | EmptyFrame | MissingColumns(missing: set<string>)

  /** `validate_dataframe(df, required_columns)`; `df` is None for a missing frame and an
      empty `required` stands for both `None` and `[]`, which Python treats alike. A frame
      is empty when it has no rows or no columns. */
  function ValidateDataFrame(df: Option<Shape>, required: seq<string>): (r: Validation)
    ensures r == EmptyFrame <==> df.None? || df.value.rows == 0 || df.value.columns == {}
    ensures r == Accepted <==>
              df.Some? && df.value.rows > 0 && df.value.columns != {} &&
              forall j :: 0 <= j < |required| ==> required[j] in df.value.columns
    ensures r.MissingColumns? ==>
              df.Some? && r.missing != {} &&
              forall c :: c in r.missing <==> c in required && c !in df.value.columns
  {
    if df.None? || df.value.rows == 0 || df.value.columns == {} then EmptyFrame
    else
      var missing := set c | c in required && c !in df.value.columns;
      assert missing == {} <==> forall j :: 0 <= j < |required| ==> required[j] in df.value.columns by {
        if exists j :: 0 <= j < |required| && required[j] !in df.value.columns {
          var j :| 0 <= j < |required| && required[j] !in df.value.columns;
          assert required[j] in missing;
        }
      }
      if missing != {} then MissingColumns(missing) else Accepted
  }

  /** The columns a bar frame carries before any indicator is added. */
  function BarShape(bars: seq<Bar>): Shape
  {
    Shape({"date", "open", "high", "low", "close", "volume"}, |bars|)
  }

  /** `validate_dataframe(df, required_columns=["close"])` on a bar frame fails exactly
      when the frame has no rows. */
  lemma BarFrameValidation(bars: seq<Bar>)
    ensures ValidateDataFrame(Some(BarShape(bars)), ["close"]) == (if |bars| == 0 then EmptyFrame else Accepted)
  {
    var v := ValidateDataFrame(Some(BarShape(bars)), ["close"]);
    if |bars| > 0 {
      assert "close" in BarShape(bars).columns;
      assert v == Accepted;
    }
  }

  // ---------------------------------------------------------------- rolling mean

  /** A fully defined column. */
  function Defined(xs: seq<real>): (r: Column)
    ensures |r| == |xs| && forall i :: 0 <= i < |xs| ==> r[i] == Some(xs[i])
  {
    seq(|xs|, i requires 0 <= i < |xs| => Some(xs[i]))
  }

  /** The trailing window of p values ending at row i. */
  function Window(xs: seq<real>, p: nat, i: nat): (w: seq<real>)
    requires 1 <= p && p <= i + 1 && i < |xs|
    ensures |w| == p && forall j :: 0 <= j < p ==> w[j] == xs[i + 1 - p + j]
  {
    xs[i + 1 - p..i + 1]
  }

  /** pandas `rolling(p).mean()`: the mean of the last p values, undefined on the first
      p - 1 rows. */
  function SmaColumn(xs: seq<real>, p: nat): (r: Column)
    requires p >= 1
    ensures |r| == |xs|
    ensures forall i :: 0 <= i < |xs| ==> (r[i].Some? <==> i + 1 >= p)
    ensures forall i :: 0 <= i < |xs| && i + 1 >= p ==> r[i] == Some(Mean(Window(xs, p, i)))
  {
    seq(|xs|, i requires 0 <= i < |xs| => if i + 1 >= p then Some(Mean(Window(xs, p, i))) else None)
  }

  /** A moving average lies between the smallest and the largest value of its window. */
  lemma SmaWithinWindow(xs: seq<real>, p: nat, i: nat)
    requires p >= 1 && i < |xs| && i + 1 >= p
    ensures Min(Window(xs, p, i)) <= SmaColumn(xs, p)[i].value <= Max(Window(xs, p, i))
  {
    var w := Window(xs, p, i);
    MeanBounds(w, Min(w), Max(w));
  }

  // ---------------------------------------------------------------- RSI

  /** `np.where(delta > 0, delta, 0)` of `series.diff()`: the NaN first difference fails
      the test and becomes 0. */
  function Gains(xs: seq<real>): (r: seq<real>)
    ensures |r| == |xs| && forall i :: 0 <= i < |xs| ==> r[i] >= 0.0
  {
    seq(|xs|, i requires 0 <= i < |xs| => if i > 0 && xs[i] - xs[i - 1] > 0.0 then xs[i] - xs[i - 1] else 0.0)
  }

  /** `np.where(delta < 0, -delta, 0)` of `series.diff()`. */
  function Losses(xs: seq<real>): (r: seq<real>)
    ensures |r| == |xs| && forall i :: 0 <= i < |xs| ==> r[i] >= 0.0
  {
    seq(|xs|, i requires 0 <= i < |xs| => if i > 0 && xs[i] - xs[i - 1] < 0.0 then xs[i - 1] - xs[i] else 0.0)
  }

  /** Gains and losses split each difference: their difference is the change itself, at
      most one of them is non-zero, and both are 0 at the first row. */
  lemma GainsLossesSplitChange(xs: seq<real>, i: nat)
    requires i < |xs|
    ensures i == 0 ==> Gains(xs)[i] == 0.0 && Losses(xs)[i] == 0.0
    ensures i > 0 ==> Gains(xs)[i] - Losses(xs)[i] == xs[i] - xs[i - 1]
    ensures Gains(xs)[i] == 0.0 || Losses(xs)[i] == 0.0
  {
  }

  const Epsilon: real := 0.0000000001

  /** `100 - 100 / (1 + avg_gain / (avg_loss + 1e-10))`: in [0, 100), and 0 exactly when
      there were no gains. */
  function RsiFormula(avgGain: real, avgLoss: real): (r: real)
    requires avgGain >= 0.0 && avgLoss >= 0.0
    ensures 0.0 <= r < 100.0
    ensures r == 0.0 <==> avgGain == 0.0
  {
    var rs := avgGain / (avgLoss + Epsilon);
    assert rs >= 0.0 && (rs == 0.0 <==> avgGain == 0.0) by {
      assert avgGain == rs * (avgLoss + Epsilon);
    }
    var q := 100.0 / (1.0 + rs);
    assert 0.0 < q <= 100.0 && (q == 100.0 <==> rs == 0.0) by {
      assert 100.0 == q * (1.0 + rs);
    }
    100.0 - q
  }

  /** The RSI at row i from the rolling means of gains and losses. */
  function RsiAt(xs: seq<real>, period: nat, i: nat): (r: real)
    requires period >= 1 && i < |xs| && i + 1 >= period
    ensures 0.0 <= r <= 100.0
  {
    var g, l := Window(Gains(xs), period, i), Window(Losses(xs), period, i);
    MeanAtLeast(g, 0.0);
    MeanAtLeast(l, 0.0);
    RsiFormula(Mean(g), Mean(l))
  }

  /** `calculate_rsi(series, period)`: defined from row period - 1 on (the first
      difference counts as 0), and every defined value is in [0, 100]. */
  function RsiColumn(xs: seq<real>, period: nat): (r: Column)
    requires period >= 1
    ensures |r| == |xs|
    ensures forall i :: 0 <= i < |xs| ==> (r[i].Some? <==> i + 1 >= period)
    ensures forall i :: 0 <= i < |xs| && r[i].Some? ==> 0.0 <= r[i].value <= 100.0
  {
    seq(|xs|, i requires 0 <= i < |xs| => if i + 1 >= period then Some(RsiAt(xs, period, i)) else None)
  }

  /** `100 - 100 / (1 + gain / loss)` without the epsilon: a zero average loss gives
      +inf and so 100 when there were gains, and 0/0 = NaN when there were none. */
  function RsiNoEpsilonFormula(avgGain: real, avgLoss: real): (r: Option<real>)
    requires avgGain >= 0.0 && avgLoss >= 0.0
    ensures r.None? <==> avgGain == 0.0 && avgLoss == 0.0
    ensures r.Some? ==> 0.0 <= r.value <= 100.0
    ensures r == Some(100.0) <==> avgLoss == 0.0 && avgGain > 0.0
  {
    if avgLoss == 0.0 then (if avgGain > 0.0 then Some(100.0) else None)
    else
      var rs := avgGain / avgLoss;
      assert rs >= 0.0 by {
        assert avgGain == rs * avgLoss;
      }
      var q := 100.0 / (1.0 + rs);
      assert 0.0 < q <= 100.0 by {
        assert 100.0 == q * (1.0 + rs);
      }
      Some(100.0 - q)
  }

  /** The enhanced predictor's RSI column (no epsilon in the denominator). */
  function RsiNoEpsilonColumn(xs: seq<real>, period: nat): (r: Column)
    requires period >= 1
    ensures |r| == |xs|
    ensures forall i :: 0 <= i < |xs| && r[i].Some? ==> i + 1 >= period && 0.0 <= r[i].value <= 100.0
  {
    seq(|xs|, i requires 0 <= i < |xs| =>
      if i + 1 >= period then
        var g, l := Window(Gains(xs), period, i), Window(Losses(xs), period, i);
        MeanAtLeast(g, 0.0);
        MeanAtLeast(l, 0.0);
        RsiNoEpsilonFormula(Mean(g), Mean(l))
      else None)
  }

  // ---------------------------------------------------------------- EMA and MACD

  /** The smoothing factor 2 / (span + 1) of `ewm(span=...)`. */
  function Alpha(span: nat): (a: real)
    requires span >= 1
    ensures 0.0 < a <= 1.0
  {
    2.0 / (span as real + 1.0)
  }

  /** `ewm(alpha, adjust=False).mean()` at row t: e0 = x0, e_t = a*x_t + (1-a)*e_(t-1). */
  function EmaAt(xs: seq<real>, alpha: real, t: nat): real
    requires t < |xs|
    decreases t
  {
    if t == 0 then xs[0] else Blend(alpha, xs[t], EmaAt(xs, alpha, t - 1))
  }

  /** `series.ewm(span=span, adjust=False).mean()`. */
  function Ema(xs: seq<real>, span: nat): (r: seq<real>)
    requires span >= 1
    ensures |r| == |xs| && forall t :: 0 <= t < |xs| ==> r[t] == EmaAt(xs, Alpha(span), t)
  {
    seq(|xs|, t requires 0 <= t < |xs| => EmaAt(xs, Alpha(span), t))
  }

  /** The EMA is a running convex combination: it stays between the least and the
      greatest value seen so far. */
  lemma {:induction false} EmaBetween(xs: seq<real>, alpha: real, t: nat, lo: real, hi: real)
    requires t < |xs| && 0.0 <= alpha <= 1.0
    requires forall i :: 0 <= i <= t ==> lo <= xs[i] <= hi
    ensures lo <= EmaAt(xs, alpha, t) <= hi
    decreases t
  {
    if t > 0 {
      EmaBetween(xs, alpha, t - 1, lo, hi);
      ConvexBetween(alpha, xs[t], EmaAt(xs, alpha, t - 1), lo, hi);
    }
  }

  /** `exp1 - exp2`, the MACD line. */
  function MacdLine(xs: seq<real>, fast: nat, slow: nat): (r: seq<real>)
    requires fast >= 1 && slow >= 1
    ensures |r| == |xs|
  {
    var e1, e2 := Ema(xs, fast), Ema(xs, slow);
    seq(|xs|, t requires 0 <= t < |xs| => e1[t] - e2[t])
  }

  /** `calculate_macd`: the histogram, MACD line minus its signal EMA, as long as the input. */
  function MacdHistogram(xs: seq<real>, fast: nat, slow: nat, signal: nat): (r: seq<real>)
    requires fast >= 1 && slow >= 1 && signal >= 1
    ensures |r| == |xs|
  {
    var m := MacdLine(xs, fast, slow);
    var s := Ema(m, signal);
    seq(|xs|, t requires 0 <= t < |xs| => m[t] - s[t])
  }

  /** A flat price series has a flat zero MACD histogram. */
  lemma MacdOfConstantIsZero(xs: seq<real>, c: real, fast: nat, slow: nat, signal: nat)
    requires fast >= 1 && slow >= 1 && signal >= 1
    requires forall i :: 0 <= i < |xs| ==> xs[i] == c
    ensures forall t :: 0 <= t < |xs| ==> MacdHistogram(xs, fast, slow, signal)[t] == 0.0
  {
    var m := MacdLine(xs, fast, slow);
    forall t | 0 <= t < |xs|
      ensures m[t] == 0.0
    {
      EmaBetween(xs, Alpha(fast), t, c, c);
      EmaBetween(xs, Alpha(slow), t, c, c);
    }
    forall t | 0 <= t < |xs|
      ensures EmaAt(m, Alpha(signal), t) == 0.0
    {
      EmaBetween(m, Alpha(signal), t, 0.0, 0.0);
    }
  }

  /** Total weight 1 + beta + ... + beta^t of pandas' `adjust=True` EMA at row t. */
  function AdjustedDenominator(beta: real, t: nat): (d: real)
    requires beta >= 0.0
    ensures d >= 1.0
    decreases t
  {
    if t == 0 then 1.0 else 1.0 + beta * AdjustedDenominator(beta, t - 1)
  }

  /** The share of the newest value in the `adjust=True` average at row t. */
  function AdjustedWeight(beta: real, t: nat): (w: real)
    requires beta >= 0.0
    ensures 0.0 < w <= 1.0
  {
    var d := AdjustedDenominator(beta, t);
    DivBounds(1.0, d, 0.0, 1.0);
    assert 1.0 == d * (1.0 / d);
    1.0 / d
  }

  /** pandas' `adjust=True` EMA at row t, the weighted mean of x_t, x_(t-1), ..., x_0
      with weights 1, beta, beta^2, ..., computed as pandas does, by folding each new
      value into the running mean with its share 1 / (1 + beta + ... + beta^t). */
  function AdjustedEmaAt(xs: seq<real>, beta: real, t: nat): real
    requires t < |xs| && beta >= 0.0
    decreases t
  {
    if t == 0 then xs[0] else Blend(AdjustedWeight(beta, t), xs[t], AdjustedEmaAt(xs, beta, t - 1))
  }

  /** The adjusted EMA is a weighted mean of the values so far, so it stays between
      their least and greatest value. */
  lemma {:induction false} AdjustedEmaBetween(xs: seq<real>, beta: real, t: nat, lo: real, hi: real)
    requires t < |xs| && beta >= 0.0
    requires forall i :: 0 <= i <= t ==> lo <= xs[i] <= hi
    ensures lo <= AdjustedEmaAt(xs, beta, t) <= hi
    decreases t
  {
    if t > 0 {
      AdjustedEmaBetween(xs, beta, t - 1, lo, hi);
      ConvexBetween(AdjustedWeight(beta, t), xs[t], AdjustedEmaAt(xs, beta, t - 1), lo, hi);
    }
  }

  /** pandas `ewm(span=span).mean()` with the default `adjust=True`. */
  function AdjustedEma(xs: seq<real>, span: nat): (r: seq<real>)
    requires span >= 1
    ensures |r| == |xs|
    ensures forall t :: 0 <= t < |xs| ==> r[t] == AdjustedEmaAt(xs, 1.0 - Alpha(span), t)
  {
    seq(|xs|, t requires 0 <= t < |xs| => AdjustedEmaAt(xs, 1.0 - Alpha(span), t))
  }

  // ---------------------------------------------------------------- Bollinger bands

  function SquaredDeviations(w: seq<real>, m: real): (r: seq<real>)
    ensures |r| == |w| && forall j :: 0 <= j < |w| ==> r[j] >= 0.0
  {
    assert forall j :: 0 <= j < |w| ==> (w[j] - m) * (w[j] - m) >= 0.0 by {
      forall j | 0 <= j < |w| {
        SquareNonNegative(w[j] - m);
      }
    }
    seq(|w|, j requires 0 <= j < |w| => (w[j] - m) * (w[j] - m))
  }

  /** Sample variance (ddof = 1) of a window of at least two values. */
  function SampleVariance(w: seq<real>): (r: real)
    requires |w| >= 2
    ensures r >= 0.0
  {
    var sq := SquaredDeviations(w, Mean(w));
    SumAtLeast(sq, 0.0);
    var s := Sum(sq);
    var d := (|w| - 1) as real;
    assert s == d * (s / d);
    s / d
  }

  /** The square root is not modelled; all that is used is that it is non-negative on
      non-negative arguments. */
  ghost predicate NonNegativeRoot(sqrt: real -> real)
  {
    forall x :: x >= 0.0 ==> sqrt(x) >= 0.0
  }

  /** pandas `rolling(p).std()`: undefined before row p - 1, and everywhere when p = 1
      (one value has no sample deviation). */
  function RollingStd(xs: seq<real>, p: nat, sqrt: real -> real, i: nat): (r: Option<real>)
    requires p >= 1 && i < |xs| && NonNegativeRoot(sqrt)
    ensures r.Some? <==> p >= 2 && i + 1 >= p
    ensures r.Some? ==> r.value >= 0.0
  {
    if p >= 2 && i + 1 >= p then Some(sqrt(SampleVariance(Window(xs, p, i)))) else None
  }

  datatype Bands = Bands(upper: Column, middle: Column, lower: Column)

  /** middle + k*std, undefined when either is. */
  function Offset(middle: Option<real>, std: Option<real>, k: real): (r: Option<real>)
    ensures r.Some? <==> middle.Some? && std.Some?
  {
    if middle.Some? && std.Some? then Some(middle.value + std.value * k) else None
  }

  /** `calculate_bollinger_bands(series, period, std_dev)`: the rolling mean and the mean
      plus and minus `std_dev` rolling standard deviations. */
  function BollingerBands(xs: seq<real>, p: nat, k: real, sqrt: real -> real): (r: Bands)
    requires p >= 1 && NonNegativeRoot(sqrt)
    ensures |r.upper| == |xs| && |r.middle| == |xs| && |r.lower| == |xs|
    ensures r.middle == SmaColumn(xs, p)
  {
    var middle := SmaColumn(xs, p);
    Bands(seq(|xs|, i requires 0 <= i < |xs| => Offset(middle[i], RollingStd(xs, p, sqrt, i), k)),
          middle,
          seq(|xs|, i requires 0 <= i < |xs| => Offset(middle[i], RollingStd(xs, p, sqrt, i), -k)))
  }

  /** The bands are defined from row p - 1 on (never for p = 1), and with a
      non-negative multiplier they are ordered: lower <= middle <= upper. */
  lemma BollingerBandsOrdered(xs: seq<real>, p: nat, k: real, sqrt: real -> real, i: nat)
    requires p >= 1 && NonNegativeRoot(sqrt) && i < |xs|
    ensures var b := BollingerBands(xs, p, k, sqrt);
            (b.upper[i].Some? <==> p >= 2 && i + 1 >= p) && (b.lower[i].Some? <==> p >= 2 && i + 1 >= p)
    ensures var b := BollingerBands(xs, p, k, sqrt);
            k >= 0.0 && b.upper[i].Some? ==> b.lower[i].value <= b.middle[i].value <= b.upper[i].value
  {
    var std := RollingStd(xs, p, sqrt, i);
    if k >= 0.0 && std.Some? {
      ScaleMono(std.value, 0.0, k);
    }
  }

  /** `(close - lower) / (upper - lower)`: undefined when a band is undefined or the band
      has zero width (0/0 is NaN, which `fillna` later replaces); a close inside the band
      is at a position in [0, 1]. */
  function BandPosition(close: real, upper: Option<real>, lower: Option<real>): (r: Option<real>)
    ensures r.Some? <==> upper.Some? && lower.Some? && upper.value != lower.value
    ensures r.Some? && lower.value <= close <= upper.value ==> 0.0 <= r.value <= 1.0
  {
    if upper.Some? && lower.Some? && upper.value != lower.value then
      var q := (close - lower.value) / (upper.value - lower.value);
      assert lower.value <= close <= upper.value ==> 0.0 <= q <= 1.0 by {
        if lower.value <= close <= upper.value {
          DivBounds(close - lower.value, upper.value - lower.value, 0.0, 1.0);
        }
      }
      Some(q)
    else None
  }

  function BandPositions(xs: seq<real>, b: Bands): (r: Column)
    requires |b.upper| == |xs| && |b.lower| == |xs|
    ensures |r| == |xs|
  {
    seq(|xs|, i requires 0 <= i < |xs| => BandPosition(xs[i], b.upper[i], b.lower[i]))
  }

  // ---------------------------------------------------------------- momentum

  /** `close[i] / close[i - lag] - 1`: positive exactly when the close rose over the lag,
      zero exactly when it did not move. */
  function MomentumAt(xs: seq<real>, lag: nat, i: nat): (r: real)
    requires AllPositive(xs) && lag <= i < |xs|
    ensures r > 0.0 <==> xs[i] > xs[i - lag]
    ensures r == 0.0 <==> xs[i] == xs[i - lag]
  {
    RatioVersusOne(xs[i], xs[i - lag]);
    xs[i] / xs[i - lag] - 1.0
  }

  /** `close / close.shift(lag) - 1`: undefined on the first `lag` rows. */
  function MomentumColumn(xs: seq<real>, lag: nat): (r: Column)
    requires AllPositive(xs)
    ensures |r| == |xs|
    ensures forall i :: 0 <= i < |xs| ==> (r[i].Some? <==> i >= lag)
    ensures forall i :: lag <= i < |xs| ==> r[i] == Some(MomentumAt(xs, lag, i))
  {
    seq(|xs|, i requires 0 <= i < |xs| => if i >= lag then Some(MomentumAt(xs, lag, i)) else None)
  }

  // ---------------------------------------------------------------- add_technical_indicators

  predicate PositivePeriods(periods: seq<nat>)
  {
    forall j :: 0 <= j < |periods| ==> periods[j] >= 1
  }

  /** The moving-average column names for the given periods. */
  function SmaKeys(periods: seq<nat>): set<Col>
  {
    set j | 0 <= j < |periods| :: Sma(periods[j])
  }

  /** The frame's columns after the `for period in sma_periods` loop has run over
      `periods`: one moving average per period and the other columns untouched. */
  function WithSmas(cols: Columns, xs: seq<real>, periods: seq<nat>): (r: Columns)
    requires PositivePeriods(periods)
    ensures r.Keys == cols.Keys + SmaKeys(periods)
    ensures forall c :: c in cols && c !in SmaKeys(periods) ==> r[c] == cols[c]
    ensures forall j :: 0 <= j < |periods| ==> r[Sma(periods[j])] == SmaColumn(xs, periods[j])
    decreases |periods|
  {
    if |periods| == 0 then cols
    else
      var init := periods[..|periods| - 1];
      var last := periods[|periods| - 1];
      assert forall j :: 0 <= j < |init| ==> init[j] == periods[j];
      assert SmaKeys(periods) == SmaKeys(init) + {Sma(last)} by {
        forall c | c in SmaKeys(periods)
          ensures c in SmaKeys(init) + {Sma(last)}
        {
          var j :| 0 <= j < |periods| && c == Sma(periods[j]);
          if j < |init| {
            assert c == Sma(init[j]);
          }
        }
      }
      WithSmas(cols, xs, init)[Sma(last) := SmaColumn(xs, last)]
  }

  lemma ConfiguredSmaKeys()
    ensures SmaKeys(SmaPeriods) == {Sma(5), Sma(20), Sma(60)}
  {
    assert SmaPeriods[0] == 5 && SmaPeriods[1] == 20 && SmaPeriods[2] == 60;
  }

  /** The assignments after the moving averages, in the source's order. */
  function AssignIndicators(s: Columns, rsi: Column, macd: Column, momentum: Column,
                            upper: Column, middle: Column, lower: Column, position: Column): (r: Columns)
    ensures r.Keys == s.Keys + {Rsi, Macd, Momentum, BbUpper, BbMiddle, BbLower, BbPosition}
    ensures r[Rsi] == rsi && r[Macd] == macd && r[Momentum] == momentum
    ensures r[BbUpper] == upper && r[BbMiddle] == middle && r[BbLower] == lower && r[BbPosition] == position
    ensures forall c :: c in s && c !in {Rsi, Macd, Momentum, BbUpper, BbMiddle, BbLower, BbPosition} ==> r[c] == s[c]
  {
    s[Rsi := rsi][Macd := macd][Momentum := momentum][BbUpper := upper][BbMiddle := middle]
     [BbLower := lower][BbPosition := position]
  }

  /** The frame's columns once every indicator has been assigned, before `fillna`. */
  function UtilsColumns(cols: Columns, bars: seq<Bar>, sqrt: real -> real): (r: Columns)
    requires PositivePrices(bars) && NonNegativeRoot(sqrt)
  {
    var xs := Closes(bars);
    var b := BollingerBands(xs, BbPeriod, BbStd, sqrt);
    AssignIndicators(WithSmas(cols, xs, SmaPeriods), RsiColumn(xs, RsiPeriod),
                     Defined(MacdHistogram(xs, MacdFast, MacdSlow, MacdSignalSpan)),
                     MomentumColumn(xs, MomentumLagDays), b.upper, b.middle, b.lower, BandPositions(xs, b))
  }

  /** The columns `add_technical_indicators` adds. */
  function UtilsIndicatorNames(): set<Col>
  {
    {Sma(5), Sma(20), Sma(60), Rsi, Macd, Momentum, BbUpper, BbMiddle, BbLower, BbPosition}
  }

  /** The moving-average loop over the configured periods assigns the 5-, 20- and
      60-day means in that order. */
  lemma WithConfiguredSmas(cols: Columns, xs: seq<real>)
    ensures WithSmas(cols, xs, SmaPeriods) ==
            cols[Sma(5) := SmaColumn(xs, 5)][Sma(20) := SmaColumn(xs, 20)][Sma(60) := SmaColumn(xs, 60)]
  {
    assert SmaPeriods[..2] == [5, 20] && SmaPeriods[..2][..1] == [5] && [5][..0] == [];
    assert WithSmas(cols, xs, [5]) == cols[Sma(5) := SmaColumn(xs, 5)];
    assert WithSmas(cols, xs, [5, 20]) == WithSmas(cols, xs, [5])[Sma(20) := SmaColumn(xs, 20)];
  }

  /** `add_technical_indicators` adds exactly the listed columns. */
  lemma UtilsColumnsKeys(cols: Columns, bars: seq<Bar>, sqrt: real -> real)
    requires PositivePrices(bars) && NonNegativeRoot(sqrt)
    ensures UtilsColumns(cols, bars, sqrt).Keys == cols.Keys + UtilsIndicatorNames()
  {
    WithConfiguredSmas(cols, Closes(bars));
  }

  /** Assigning columns of the frame's length keeps the frame aligned. */
  lemma AssignIndicatorsAligned(s: Columns, rsi: Column, macd: Column, momentum: Column,
                                upper: Column, middle: Column, lower: Column, position: Column, n: nat)
    requires forall c :: c in s ==> |s[c]| == n
    requires |rsi| == n && |macd| == n && |momentum| == n && |upper| == n
    requires |middle| == n && |lower| == n && |position| == n
    ensures var r := AssignIndicators(s, rsi, macd, momentum, upper, middle, lower, position);
            forall c :: c in r ==> |r[c]| == n
  {
  }

  /** The moving averages `add_technical_indicators` assigns. */
  lemma UtilsColumnsSmas(cols: Columns, bars: seq<Bar>, sqrt: real -> real)
    requires PositivePrices(bars) && NonNegativeRoot(sqrt)
    ensures Sma(5) in UtilsColumns(cols, bars, sqrt) && UtilsColumns(cols, bars, sqrt)[Sma(5)] == SmaColumn(Closes(bars), 5)
    ensures Sma(20) in UtilsColumns(cols, bars, sqrt) && UtilsColumns(cols, bars, sqrt)[Sma(20)] == SmaColumn(Closes(bars), 20)
    ensures Sma(60) in UtilsColumns(cols, bars, sqrt) && UtilsColumns(cols, bars, sqrt)[Sma(60)] == SmaColumn(Closes(bars), 60)
  {
    WithConfiguredSmas(cols, Closes(bars));
  }

  /** Every column `add_technical_indicators` leaves is as long as the bar series. */
  lemma UtilsColumnsAligned(cols: Columns, bars: seq<Bar>, sqrt: real -> real)
    requires Aligned(Table(bars, cols)) && PositivePrices(bars) && NonNegativeRoot(sqrt)
    ensures Aligned(Table(bars, UtilsColumns(cols, bars, sqrt)))
  {
    var xs := Closes(bars);
    var s := WithSmas(cols, xs, SmaPeriods);
    assert forall c :: c in s ==> |s[c]| == |bars| by {
      forall c | c in s
        ensures |s[c]| == |bars|
      {
        if c !in cols {
          var j :| 0 <= j < |SmaPeriods| && c == Sma(SmaPeriods[j]);
        }
      }
    }
    var b := BollingerBands(xs, BbPeriod, BbStd, sqrt);
    AssignIndicatorsAligned(s, RsiColumn(xs, RsiPeriod), Defined(MacdHistogram(xs, MacdFast, MacdSlow, MacdSignalSpan)),
                            MomentumColumn(xs, MomentumLagDays), b.upper, b.middle, b.lower, BandPositions(xs, b), |bars|);
  }

  /** The frame's columns after `add_technical_indicators`: every indicator assigned,
      then `fillna(0)`. */
  function IndicatorColumns(cols: Columns, bars: seq<Bar>, sqrt: real -> real): Columns
    requires PositivePrices(bars) && NonNegativeRoot(sqrt)
  {
    FillNa(UtilsColumns(cols, bars, sqrt), 0.0)
  }

  /** After `add_technical_indicators` every listed column is present and every column is
      aligned with the bars with no undefined cell left. */
  lemma IndicatorColumnsComplete(cols: Columns, bars: seq<Bar>, sqrt: real -> real)
    requires Aligned(Table(bars, cols)) && PositivePrices(bars) && NonNegativeRoot(sqrt)
    ensures UtilsIndicatorNames() <= IndicatorColumns(cols, bars, sqrt).Keys
    ensures Aligned(Table(bars, IndicatorColumns(cols, bars, sqrt)))
    ensures forall c, i :: c in IndicatorColumns(cols, bars, sqrt) && 0 <= i < |bars| ==>
              IndicatorColumns(cols, bars, sqrt)[c][i].Some?
  {
    UtilsColumnsKeys(cols, bars, sqrt);
    UtilsColumnsAligned(cols, bars, sqrt);
  }

  /** Each moving average is the configured rolling mean with its first p - 1 rows
      filled with 0. */
  lemma IndicatorColumnsSmas(cols: Columns, bars: seq<Bar>, sqrt: real -> real)
    requires PositivePrices(bars) && NonNegativeRoot(sqrt)
    ensures forall p :: p in SmaPeriods ==>
              Sma(p) in IndicatorColumns(cols, bars, sqrt) &&
              IndicatorColumns(cols, bars, sqrt)[Sma(p)] == FillColumn(SmaColumn(Closes(bars), p), 0.0)
  {
    UtilsColumnsSmas(cols, bars, sqrt);
    assert SmaPeriods[0] == 5 && SmaPeriods[1] == 20 && SmaPeriods[2] == 60;
  }

  /** The RSI and momentum columns `add_technical_indicators` assigns. */
  lemma UtilsColumnsRsiMomentum(cols: Columns, bars: seq<Bar>, sqrt: real -> real)
    requires PositivePrices(bars) && NonNegativeRoot(sqrt)
    ensures Rsi in UtilsColumns(cols, bars, sqrt) && UtilsColumns(cols, bars, sqrt)[Rsi] == RsiColumn(Closes(bars), RsiPeriod)
    ensures Momentum in UtilsColumns(cols, bars, sqrt) && UtilsColumns(cols, bars, sqrt)[Momentum] == MomentumColumn(Closes(bars), MomentumLagDays)
  {
  }

  /** The momentum column left by `add_technical_indicators` is the 5-day momentum with
      its first five rows filled with 0. */
  lemma IndicatorColumnsMomentum(cols: Columns, bars: seq<Bar>, sqrt: real -> real)
    requires PositivePrices(bars) && NonNegativeRoot(sqrt)
    ensures Momentum in IndicatorColumns(cols, bars, sqrt)
    ensures IndicatorColumns(cols, bars, sqrt)[Momentum] == FilledMomentum(bars)
  {
    UtilsColumnsRsiMomentum(cols, bars, sqrt);
  }

  /** `close / close.shift(5) - 1` after `fillna(0)`. */
  function FilledMomentum(bars: seq<Bar>): (r: Column)
    requires PositivePrices(bars)
  {
    PositiveCloses(bars);
    FillColumn(MomentumColumn(Closes(bars), MomentumLagDays), 0.0)
  }

  /** The filled momentum is 0 on the first five rows and `close[i] / close[i-5] - 1`
      from row 5 on. */
  lemma FilledMomentumValues(bars: seq<Bar>)
    requires PositivePrices(bars)
    ensures |FilledMomentum(bars)| == |bars|
    ensures forall i :: 0 <= i < MomentumLagDays && i < |bars| ==> FilledMomentum(bars)[i] == Some(0.0)
    ensures forall i :: MomentumLagDays <= i < |bars| ==>
              FilledMomentum(bars)[i] == Some(bars[i].close / bars[i - MomentumLagDays].close - 1.0)
  {
    PositiveCloses(bars);
    var xs := Closes(bars);
    var m := MomentumColumn(xs, MomentumLagDays);
    forall i | MomentumLagDays <= i < |bars|
      ensures FilledMomentum(bars)[i] == Some(bars[i].close / bars[i - MomentumLagDays].close - 1.0)
    {
      assert m[i] == Some(MomentumAt(xs, MomentumLagDays, i));
      assert xs[i] == bars[i].close && xs[i - MomentumLagDays] == bars[i - MomentumLagDays].close;
    }
  }

  /** RSI lies in [0, 100] on every row: defined values are in range and `fillna`
      writes 0 elsewhere. */
  lemma IndicatorColumnsRsi(cols: Columns, bars: seq<Bar>, sqrt: real -> real)
    requires PositivePrices(bars) && NonNegativeRoot(sqrt)
    ensures Rsi in IndicatorColumns(cols, bars, sqrt) && |IndicatorColumns(cols, bars, sqrt)[Rsi]| == |bars|
    ensures forall i :: 0 <= i < |bars| ==> IndicatorColumns(cols, bars, sqrt)[Rsi][i].Some? && 0.0 <= IndicatorColumns(cols, bars, sqrt)[Rsi][i].value <= 100.0
  {
    UtilsColumnsRsiMomentum(cols, bars, sqrt);
    var rsi := RsiColumn(Closes(bars), RsiPeriod);
    var f := FillColumn(rsi, 0.0);
    assert IndicatorColumns(cols, bars, sqrt)[Rsi] == f;
    assert forall i :: 0 <= i < |bars| ==> f[i].Some? && 0.0 <= f[i].value <= 100.0;
  }

  /** The `for period in sma_periods` loop: one rolling-mean column per period. */
  method AssignSmas(df: Frame, xs: seq<real>, periods: seq<nat>)
    requires df.Valid() && |xs| == |df.bars| && PositivePeriods(periods)
    modifies df
    ensures df.Valid() && df.bars == old(df.bars)
    ensures df.cols == WithSmas(old(df.cols), xs, periods)
  {
    for k := 0 to |periods|
      invariant df.Valid() && df.bars == old(df.bars)
      invariant df.cols == WithSmas(old(df.cols), xs, periods[..k])
    {
      df.SetColumn(Sma(periods[k]), SmaColumn(xs, periods[k]));
      assert periods[..k + 1][..k] == periods[..k];
    }
    assert periods[..|periods|] == periods;
  }

  /** The seven column assignments after the moving averages, in the source's order. */
  method AssignInPlace(df: Frame, rsi: Column, macd: Column, momentum: Column,
                       upper: Column, middle: Column, lower: Column, position: Column)
    requires df.Valid() && |rsi| == |df.bars| && |macd| == |df.bars| && |momentum| == |df.bars|
    requires |upper| == |df.bars| && |middle| == |df.bars| && |lower| == |df.bars| && |position| == |df.bars|
    modifies df
    ensures df.Valid() && df.bars == old(df.bars)
    ensures df.cols == AssignIndicators(old(df.cols), rsi, macd, momentum, upper, middle, lower, position)
  {
    df.SetColumn(Rsi, rsi);
    df.SetColumn(Macd, macd);
    df.SetColumn(Momentum, momentum);
    df.SetColumn(BbUpper, upper);
    df.SetColumn(BbMiddle, middle);
    df.SetColumn(BbLower, lower);
    df.SetColumn(BbPosition, position);
  }

  /** `add_technical_indicators(df, validate)`: when validation is asked for and fails,
      the ValueError leaves the frame as it was; otherwise the indicator columns are
      assigned in the source's order and `fillna(0, inplace=True)` completes the frame. */
  method AddTechnicalIndicators(df: Frame, validate: bool, sqrt: real -> real) returns (r: Validation)
    requires df.Valid() && PositivePrices(df.bars) && NonNegativeRoot(sqrt)
    modifies df
    ensures df.Valid() && df.bars == old(df.bars)
    ensures r == (if validate then ValidateDataFrame(Some(BarShape(df.bars)), ["close"]) else Accepted)
    ensures r != Accepted ==> df.cols == old(df.cols)
    ensures r == Accepted ==> df.cols == IndicatorColumns(old(df.cols), df.bars, sqrt)
  {
    r := Accepted;
    if validate {
      r := ValidateDataFrame(Some(BarShape(df.bars)), ["close"]);
      if r != Accepted {
        return;
      }
    }
    var xs := Closes(df.bars);
    AssignSmas(df, xs, SmaPeriods);
    var b := BollingerBands(xs, BbPeriod, BbStd, sqrt);
    AssignInPlace(df, RsiColumn(xs, RsiPeriod), Defined(MacdHistogram(xs, MacdFast, MacdSlow, MacdSignalSpan)),
                  MomentumColumn(xs, MomentumLagDays), b.upper, b.middle, b.lower, BandPositions(xs, b));
    df.FillNaInPlace(0.0);
  }
}
