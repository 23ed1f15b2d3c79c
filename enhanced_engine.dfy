/** The inflection-day engine of predict_model_enhanced_complete.py: the Ichimoku columns
    added to the frame in place, the swing lows found by the centred 20-bar rolling
    minimum, a status and a rule-based strength for each of the nine inflection days,
    the mean of the active strengths with its recommendation, the technical indicators
    of this predictor, and the 60/40 blend with the machine-learning score. */
module EnhancedEngine {
  import opened Series
  import opened Frames
  import opened IchimokuLines
  import opened Indicators

  /** `self.inflection_points`: the checkpoints, in days after the low. */
  const InflectionPoints: seq<nat> := [9, 13, 26, 33, 42, 51, 65, 77, 88]
  /** Rows the Ichimoku computation and the analysis need. */
  const MinBars: nat := 88
  /** `find_significant_lows(df, window=20)`. */
  const LowWindow: nat := 20
  /** An inflection day is active within this many days either side. */
  const Tolerance: nat := 5

  // ---------------------------------------------------------------- columns

  /** `calculate_ichimoku_indicators(df)`: with fewer than 88 rows the frame is returned
      untouched; otherwise the five lines are assigned to it. */
  method CalculateIchimokuIndicators(df: Frame)
    requires df.Valid()
    modifies df
    ensures df.Valid() && df.bars == old(df.bars)
    ensures df.cols == (if |df.bars| < MinBars then old(df.cols) else WithIchimoku(old(df.cols), df.bars))
  {
    if |df.bars| < MinBars {
      return;
    }
    df.SetColumn(Tenkan, TenkanLine(df.bars));
    df.SetColumn(Kijun, KijunLine(df.bars));
    df.SetColumn(SpanA, SpanALine(df.bars));
    df.SetColumn(SpanB, SpanBLine(df.bars));
    df.SetColumn(Chikou, ChikouLine(df.bars));
  }

  /** `find_significant_lows(df)`: the rows whose low equals the centred 20-bar rolling
      minimum and that have no undefined cell, in row order; no rows for a frame shorter
      than 40. */
  function FindSignificantLows(t: Table): (r: seq<nat>)
    requires Aligned(t)
    ensures |t.bars| < 2 * LowWindow ==> r == []
    ensures forall i :: 0 <= i < |r| ==> r[i] < |t.bars|
  {
    if |t.bars| < 2 * LowWindow then [] else SignificantRows(t, LowWindow, LowPoint, |t.bars|)
  }

  /** Each row found is a low of its centred 20-bar window with a complete row, every
      such row is found, and the rows come in increasing order. */
  lemma FindSignificantLowsSpec(t: Table)
    requires Aligned(t) && |t.bars| >= 2 * LowWindow
    ensures var r := FindSignificantLows(t);
            forall i :: 0 <= i < |r| ==> IsSignificant(t, LowWindow, LowPoint, r[i])
    ensures var r := FindSignificantLows(t);
            forall p :: 0 <= p < |t.bars| && IsSignificant(t, LowWindow, LowPoint, p) ==> p in r
    ensures var r := FindSignificantLows(t);
            forall i, j :: 0 <= i < j < |r| ==> r[i] < r[j]
  {
    SignificantRowsSound(t, LowWindow, LowPoint, |t.bars|);
    SignificantRowsComplete(t, LowWindow, LowPoint, |t.bars|);
    SignificantRowsSorted(t, LowWindow, LowPoint, |t.bars|);
  }

  // ---------------------------------------------------------------- what the rules read

  /** The frame a rule reads: it has the Ichimoku columns and at least 88 rows, and the
      rules look at its last row. */
  predicate RuleContext(t: Table, idx: nat)
  {
    HasIchimoku(t) && PositivePrices(t.bars) && |t.bars| >= MinBars && idx == |t.bars| - 1
  }

  /** The cells the rules read at the last row `idx` and a few rows back (`k` rows back
      is written `...Back<k>`), and the highs and volumes of the last rows. */
  datatype LastRows = LastRows(
    idx: nat, close: real, closeBack5: real, closeBack10: real, closeBack26: real,
    tenkan: Option<real>, kijun: Option<real>, tenkanBack1: Option<real>, kijunBack1: Option<real>,
    tenkanBack26: Option<real>, spanA: Option<real>, spanB: Option<real>, spanBBack5: Option<real>,
    spanABack26: Option<real>, spanBBack26: Option<real>,
    high: real, high10: real, high26: real, high60: real,
    volume: real, volumeMean10: real, volumeMean20: real)

  /** What the frame guarantees of the values read: positive earlier closes, and
      10-, 26- and 60-day highs that include the last row's high. */
  predicate Readable(v: LastRows)
  {
    v.closeBack5 > 0.0 && v.closeBack10 > 0.0 && v.high <= v.high10 && v.high <= v.high26 && v.high <= v.high60
  }

  /** Reading the last rows of a rule's frame. */
  function LastRowsOf(t: Table, idx: nat): (v: LastRows)
    requires RuleContext(t, idx)
    ensures v.idx == idx && Readable(v)
  {
    var highs, volumes := Highs(t.bars), Volumes(t.bars);
    TailMaxCoversLast(highs, 10);
    TailMaxCoversLast(highs, 26);
    TailMaxCoversLast(highs, 60);
    LastRows(idx, t.bars[idx].close, t.bars[idx - 5].close, t.bars[idx - 10].close, t.bars[idx - 26].close,
             t.cols[Tenkan][idx], t.cols[Kijun][idx], t.cols[Tenkan][idx - 1], t.cols[Kijun][idx - 1],
             t.cols[Tenkan][idx - 26], t.cols[SpanA][idx], t.cols[SpanB][idx], t.cols[SpanB][idx - 5],
             t.cols[SpanA][idx - 26], t.cols[SpanB][idx - 26],
             t.bars[idx].high, Max(Tail(highs, 10)), Max(Tail(highs, 26)), Max(Tail(highs, 60)),
             t.bars[idx].volume as real, Mean(Tail(volumes, 10)), Mean(Tail(volumes, 20)))
  }

  // ---------------------------------------------------------------- D+13

  /** The conversion line crosses above the base line at the last row. */
  predicate GoldenCross(v: LastRows)
  {
    v.idx >= 1 && Gt(v.tenkan, v.kijun) && Le(v.tenkanBack1, v.kijunBack1)
  }

  /** The lagging span, the close 26 rows back, is above the conversion line of that row. */
  predicate LaggingAboveConversion(v: LastRows)
  {
    v.idx >= 26 && Gt(Some(v.closeBack26), v.tenkanBack26)
  }

  /** The D+13 strength as the sum of its three bonuses, capped at 100. */
  function Rule13Strength(v: LastRows): (r: int)
    ensures 0 <= r <= 100
  {
    MinInt(Bonus(GoldenCross(v), 40) + Bonus(LaggingAboveConversion(v), 30) + Bonus(v.close > v.closeBack5, 20), 100)
  }

  /** `analyze_13_inflection_signal` */
  method AnalyzeRule13(v: LastRows) returns (strength: int)
    ensures strength == Rule13Strength(v)
  {
    strength := 0;
    if v.idx >= 1 && Gt(v.tenkan, v.kijun) && Le(v.tenkanBack1, v.kijunBack1) {
      strength := strength + 40;
    }
    if v.idx >= 26 {
      if Gt(Some(v.closeBack26), v.tenkanBack26) {
        strength := strength + 30;
      }
    }
    if v.close > v.closeBack5 {
      strength := strength + 20;
    }
    strength := MinInt(strength, 100);
  }

  /** The cap never bites: the D+13 strength lies in [0, 90] and reaches 90 exactly when
      all three signals are present. */
  lemma Rule13Range(v: LastRows)
    ensures 0 <= Rule13Strength(v) <= 90
    ensures Rule13Strength(v) == 90 <==> GoldenCross(v) && LaggingAboveConversion(v) && v.close > v.closeBack5
  {
  }

  // ---------------------------------------------------------------- D+26

  /** The close is above both leading spans. */
  predicate AboveCloud(v: LastRows)
  {
    v.idx >= 26 && Gt(Some(v.close), v.spanA) && Gt(Some(v.close), v.spanB)
  }

  function Rule26Strength(v: LastRows): (r: int)
    ensures 0 <= r <= 100
  {
    MinInt(Bonus(AboveCloud(v), 50) + Bonus(v.close >= v.high26, 30) + Bonus(Gt(v.spanA, v.spanB), 20), 100)
  }

  /** `analyze_26_inflection_signal` */
  method AnalyzeRule26(v: LastRows) returns (strength: int)
    ensures strength == Rule26Strength(v)
  {
    strength := 0;
    var price := v.close;
    if v.idx >= 26 && Gt(Some(price), v.spanA) && Gt(Some(price), v.spanB) {
      strength := strength + 50;
    }
    if price >= v.high26 {
      strength := strength + 30;
    }
    if Gt(v.spanA, v.spanB) {
      strength := strength + 20;
    }
    strength := MinInt(strength, 100);
  }

  /** The D+26 strength lies in [0, 100]; the 26-day-high bonus needs a close at or above
      the last row's own high, so a close below the high caps the strength at 70. */
  lemma Rule26Range(v: LastRows)
    requires Readable(v)
    ensures 0 <= Rule26Strength(v) <= 100
    ensures v.close < v.high ==> Rule26Strength(v) <= 70
    ensures v.close < v.high26 ==> Rule26Strength(v) <= 70
  {
  }

  // ---------------------------------------------------------------- D+42

  function Rule42Strength(v: LastRows): (r: int)
    ensures 0 <= r <= 100
  {
    MinInt(Bonus(v.close >= v.high60, 60) + Bonus(v.idx >= 5 && Gt(v.spanB, v.spanBBack5), 25) +
           Bonus(v.volume > v.volumeMean10 * 1.2, 15), 100)
  }

  /** `analyze_42_inflection_signal` */
  method AnalyzeRule42(v: LastRows) returns (strength: int)
    ensures strength == Rule42Strength(v)
  {
    strength := 0;
    var price := v.close;
    if price >= v.high60 {
      strength := strength + 60;
    }
    if v.idx >= 5 && Gt(v.spanB, v.spanBBack5) {
      strength := strength + 25;
    }
    if v.volume > v.volumeMean10 * 1.2 {
      strength := strength + 15;
    }
    strength := MinInt(strength, 100);
  }

  /** The D+42 strength lies in [0, 100], is at least 60 on a 60-day high and at most 40
      without one. */
  lemma Rule42Range(v: LastRows)
    ensures 0 <= Rule42Strength(v) <= 100
    ensures v.close >= v.high60 <==> Rule42Strength(v) >= 60
  {
  }

  // ---------------------------------------------------------------- D+51

  /** 50 for a 10-day rise above 5%, else 25 for any rise, else 0. */
  function TrendBonus(change: real): int
  {
    if change > 5.0 then 50 else if change > 0.0 then 25 else 0
  }

  /** The leading spans are further apart than 2% of the close. */
  predicate ThickCloud(v: LastRows)
  {
    v.idx >= 26 && Gt(AbsDiff(v.spanA, v.spanB), Some(v.close * 0.02))
  }

  /** The lagging span is above Python's `max` of the two spans 26 rows back. */
  predicate LaggingAboveCloud(v: LastRows)
  {
    v.idx >= 26 && Gt(Some(v.closeBack26), PyMax(v.spanABack26, v.spanBBack26))
  }

  function Rule51Strength(v: LastRows): (r: int)
    requires v.closeBack10 > 0.0
    ensures 0 <= r <= 100
  {
    MinInt(TrendBonus(PctChange(v.close, v.closeBack10)) + Bonus(ThickCloud(v), 30) + Bonus(LaggingAboveCloud(v), 20), 100)
  }

  /** `analyze_51_inflection_signal` */
  method AnalyzeRule51(v: LastRows) returns (strength: int)
    requires v.closeBack10 > 0.0
    ensures strength == Rule51Strength(v)
  {
    strength := 0;
    var change := PctChange(v.close, v.closeBack10);
    if change > 5.0 {
      strength := strength + 50;
    } else if change > 0.0 {
      strength := strength + 25;
    }
    if v.idx >= 26 {
      var thickness := AbsDiff(v.spanA, v.spanB);
      if Gt(thickness, Some(v.close * 0.02)) {
        strength := strength + 30;
      }
    }
    if v.idx >= 26 && Gt(Some(v.closeBack26), PyMax(v.spanABack26, v.spanBBack26)) {
      strength := strength + 20;
    }
    strength := MinInt(strength, 100);
  }

  /** The D+51 strength lies in [0, 100]; the trend bonus is 50 exactly when the close
      rose more than 5% over ten rows, and 0 exactly when it did not rise. */
  lemma Rule51Range(v: LastRows)
    requires v.closeBack10 > 0.0
    ensures 0 <= Rule51Strength(v) <= 100
    ensures TrendBonus(PctChange(v.close, v.closeBack10)) == 50 <==> v.close > v.closeBack10 * 1.05
    ensures TrendBonus(PctChange(v.close, v.closeBack10)) == 0 <==> v.close <= v.closeBack10
  {
    PctChangeAbove(v.close, v.closeBack10, 5.0);
    PctChangeAbove(v.close, v.closeBack10, 0.0);
  }

  // ---------------------------------------------------------------- D+65 and D+77

  function Clamp(x: int): int
  {
    MaxInt(MinInt(x, 100), -100)
  }

  function MajorStrength(v: LastRows): (r: int)
    ensures r == -60 || r == -30 || r == 10
  {
    Clamp(if v.close < v.high10 * 0.95 then -60 else if v.volume > v.volumeMean20 * 2.0 then -30 else 10)
  }

  /** `analyze_major_inflection_signal` */
  method AnalyzeMajorRule(v: LastRows) returns (strength: int)
    ensures strength == MajorStrength(v)
  {
    strength := 0;
    var recentHigh := v.high10;
    var price := v.close;
    if price < recentHigh * 0.95 {
      strength := -60;
    } else {
      if v.volume > v.volumeMean20 * 2.0 {
        strength := -30;
      } else {
        strength := 10;
      }
    }
    strength := MaxInt(MinInt(strength, 100), -100);
  }

  /** The major rule yields -60, -30 or 10; a fall of more than 5% from the 10-day high
      gives -60 whatever the volume, and -30 needs the volume spike without the fall. */
  lemma MajorOutcomes(v: LastRows)
    ensures MajorStrength(v) in {-60, -30, 10}
    ensures MajorStrength(v) == -60 <==> v.close < v.high10 * 0.95
    ensures MajorStrength(v) == -30 <==> v.close >= v.high10 * 0.95 && v.volume > v.volumeMean20 * 2.0
  {
  }

  // ---------------------------------------------------------------- other days

  function GeneralStrength(v: LastRows): (r: int)
    requires v.closeBack5 > 0.0
    ensures r == 30 || r == 0 || r == -30
  {
    var change := PctChange(v.close, v.closeBack5);
    Clamp(if change > 2.0 then 30 else if change < -2.0 then -30 else 0)
  }

  /** `analyze_general_inflection_signal` */
  method AnalyzeGeneralRule(v: LastRows) returns (strength: int)
    requires v.closeBack5 > 0.0
    ensures strength == GeneralStrength(v)
  {
    strength := 0;
    var change := PctChange(v.close, v.closeBack5);
    if change > 2.0 {
      strength := strength + 30;
    } else if change < -2.0 {
      strength := strength - 30;
    }
    strength := MaxInt(MinInt(strength, 100), -100);
  }

  /** The general rule yields 30 when the close rose more than 2% over five rows, -30 when
      it fell more than 2%, and 0 otherwise. */
  lemma GeneralOutcomes(v: LastRows)
    requires v.closeBack5 > 0.0
    ensures GeneralStrength(v) in {-30, 0, 30}
    ensures GeneralStrength(v) == 30 <==> v.close > v.closeBack5 * 1.02
    ensures GeneralStrength(v) == -30 <==> v.close < v.closeBack5 * 0.98
  {
    PctChangeAbove(v.close, v.closeBack5, 2.0);
    PctChangeBelow(v.close, v.closeBack5, -2.0);
  }

  // ---------------------------------------------------------------- one inflection day

  datatype Status = Approaching | Active | Passed

  /** The status of inflection day `target` when the low was `days` days ago. */
  function StatusOf(days: int, target: nat): (s: Status)
    ensures s == Active <==> target - Tolerance <= days <= target + Tolerance
    ensures s == Approaching <==> days < target - Tolerance
    ensures s == Passed <==> days > target + Tolerance
  {
    if target - Tolerance <= days <= target + Tolerance then Active
    else if days < target - Tolerance then Approaching
    else Passed
  }

  datatype Rule = Rule13 | Rule26 | Rule42 | Rule51 | MajorRule | GeneralRule

  /** The rule an active inflection day is scored by. */
  function RuleFor(target: nat): Rule
  {
    if target == 13 then Rule13
    else if target == 26 then Rule26
    else if target == 42 then Rule42
    else if target == 51 then Rule51
    else if target == 65 || target == 77 then MajorRule
    else GeneralRule
  }

  /** Days 13, 26, 42 and 51 have their own rules, 65 and 77 the major rule, and 9, 33
      and 88 fall through to the general rule. */
  lemma RuleDispatch()
    ensures RuleFor(InflectionPoints[0]) == GeneralRule && RuleFor(InflectionPoints[3]) == GeneralRule
    ensures RuleFor(InflectionPoints[8]) == GeneralRule
    ensures RuleFor(InflectionPoints[1]) == Rule13 && RuleFor(InflectionPoints[2]) == Rule26
    ensures RuleFor(InflectionPoints[4]) == Rule42 && RuleFor(InflectionPoints[5]) == Rule51
    ensures RuleFor(InflectionPoints[6]) == MajorRule && RuleFor(InflectionPoints[7]) == MajorRule
  {
  }

  function RuleStrength(v: LastRows, rule: Rule): int
    requires Readable(v)
  {
    match rule
    case Rule13 => Rule13Strength(v)
    case Rule26 => Rule26Strength(v)
    case Rule42 => Rule42Strength(v)
    case Rule51 => Rule51Strength(v)
    case MajorRule => MajorStrength(v)
    case GeneralRule => GeneralStrength(v)
  }

  /** Every rule's strength lies in [-60, 100]. */
  lemma RuleStrengthBounds(v: LastRows, rule: Rule)
    requires Readable(v)
    ensures -60 <= RuleStrength(v, rule) <= 100
  {
    match rule
    case Rule13 => Rule13Range(v);
    case Rule26 => Rule26Range(v);
    case Rule42 => Rule42Range(v);
    case Rule51 => Rule51Range(v);
    case MajorRule => MajorOutcomes(v);
    case GeneralRule => GeneralOutcomes(v);
  }

  /** The result of `analyze_single_inflection` (its description text is not modelled). */
  datatype Signal = Signal(daysSinceLow: int, targetDay: nat, status: Status, strength: int)

  /** What `analyze_single_inflection` returns: a rule's strength when the day is active,
      strength 0 when it is approaching or passed. */
  function SingleSignal(v: LastRows, days: int, target: nat): (s: Signal)
    requires Readable(v)
    ensures s.daysSinceLow == days && s.targetDay == target && s.status == StatusOf(days, target)
    ensures s.status != Active ==> s.strength == 0
    ensures s.status == Active ==> s.strength == RuleStrength(v, RuleFor(target))
  {
    var status := StatusOf(days, target);
    Signal(days, target, status, if status == Active then RuleStrength(v, RuleFor(target)) else 0)
  }

  /** The rule dispatch of `analyze_single_inflection`. */
  method ApplyRule(v: LastRows, target: nat) returns (strength: int)
    requires Readable(v)
    ensures strength == RuleStrength(v, RuleFor(target))
  {
    if target == 13 {
      strength := AnalyzeRule13(v);
    } else if target == 26 {
      strength := AnalyzeRule26(v);
    } else if target == 42 {
      strength := AnalyzeRule42(v);
    } else if target == 51 {
      strength := AnalyzeRule51(v);
    } else if target == 65 || target == 77 {
      strength := AnalyzeMajorRule(v);
    } else {
      strength := AnalyzeGeneralRule(v);
    }
  }

  /** `analyze_single_inflection(df, low_idx, days_since_low, target_day)` */
  method AnalyzeSingleInflection(v: LastRows, days: int, target: nat) returns (s: Signal)
    requires Readable(v)
    ensures s == SingleSignal(v, days, target)
  {
    s := Signal(days, target, Approaching, 0);
    if target - Tolerance <= days <= target + Tolerance {
      s := s.(status := Active);
      var strength := ApplyRule(v, target);
      s := s.(strength := strength);
    } else if days < target - Tolerance {
      s := s.(status := Approaching);
    } else {
      s := s.(status := Passed);
    }
  }

  // ---------------------------------------------------------------- all inflection days

  /** The signals of the given checkpoints, in order. */
  function SignalsOver(v: LastRows, days: int, points: seq<nat>): (r: seq<Signal>)
    requires Readable(v)
    ensures |r| == |points|
    ensures forall k :: 0 <= k < |r| ==> r[k] == SingleSignal(v, days, points[k])
  {
    seq(|points|, k requires 0 <= k < |points| => SingleSignal(v, days, points[k]))
  }

  /** The nine signals, in checkpoint order. */
  function Signals(v: LastRows, days: int): (r: seq<Signal>)
    requires Readable(v)
    ensures |r| == |InflectionPoints|
    ensures forall k :: 0 <= k < |r| ==> r[k] == SingleSignal(v, days, InflectionPoints[k])
  {
    SignalsOver(v, days, InflectionPoints)
  }

  /** Sum of the active strengths. */
  function ActiveTotal(s: seq<Signal>): int
  {
    if |s| == 0 then 0
    else ActiveTotal(s[..|s| - 1]) + (if s[|s| - 1].status == Active then s[|s| - 1].strength else 0)
  }

  /** Number of active signals. */
  function ActiveCount(s: seq<Signal>): nat
  {
    if |s| == 0 then 0
    else ActiveCount(s[..|s| - 1]) + (if s[|s| - 1].status == Active then 1 else 0)
  }

  /** `overall_score`: the mean active strength, or 0 when nothing is active. */
  function OverallScore(s: seq<Signal>): (r: real)
    ensures ActiveCount(s) == 0 ==> r == 0.0
    ensures ActiveCount(s) > 0 ==> r * ActiveCount(s) as real == ActiveTotal(s) as real
  {
    if ActiveCount(s) > 0 then ActiveTotal(s) as real / ActiveCount(s) as real else 0.0
  }

  /** `count * lo <= total <= count * hi` when every active strength is in [lo, hi]. */
  lemma {:induction false} ActiveTotalBounds(s: seq<Signal>, lo: int, hi: int)
    requires forall k :: 0 <= k < |s| && s[k].status == Active ==> lo <= s[k].strength <= hi
    ensures ActiveCount(s) * lo <= ActiveTotal(s)
    ensures ActiveTotal(s) <= ActiveCount(s) * hi
    decreases |s|
  {
    if |s| > 0 {
      var init := s[..|s| - 1];
      assert forall k :: 0 <= k < |init| ==> init[k] == s[k];
      ActiveTotalBounds(init, lo, hi);
      var c := ActiveCount(init);
      if s[|s| - 1].status == Active {
        assert ActiveCount(s) == c + 1 && ActiveTotal(s) == ActiveTotal(init) + s[|s| - 1].strength;
        assert (c + 1) * lo == c * lo + lo && (c + 1) * hi == c * hi + hi;
      } else {
        assert ActiveCount(s) == c && ActiveTotal(s) == ActiveTotal(init);
      }
    }
  }

  /** No active signal means a zero total. */
  lemma {:induction false} NoneActive(s: seq<Signal>)
    requires ActiveCount(s) == 0
    ensures ActiveTotal(s) == 0
    ensures forall k :: 0 <= k < |s| ==> s[k].status != Active
    decreases |s|
  {
    if |s| > 0 {
      var init := s[..|s| - 1];
      NoneActive(init);
      assert forall k :: 0 <= k < |init| ==> init[k] == s[k];
    }
  }

  /** The overall score is the mean of values in [lo, hi] or 0, so it lies in [lo, hi]
      whenever lo <= 0 <= hi. */
  lemma OverallScoreBounds(s: seq<Signal>, lo: int, hi: int)
    requires lo <= 0 <= hi
    requires forall k :: 0 <= k < |s| && s[k].status == Active ==> lo <= s[k].strength <= hi
    ensures lo as real <= OverallScore(s) <= hi as real
  {
    if ActiveCount(s) > 0 {
      ActiveTotalBounds(s, lo, hi);
      IntDivBounds(ActiveTotal(s), ActiveCount(s), lo, hi);
    }
  }

  datatype Recommendation = StrongBuy | Buy | Hold | Sell | StrongSell

  /** The recommendation chain of `analyze_inflection_signals`, as written: the `<= -50` branch
      comes before the `<= -70` one. */
  function RecommendationOf(score: real): (r: Recommendation)
    ensures r != StrongSell
  {
    if score >= 70.0 then StrongBuy
    else if score >= 50.0 then Buy
    else if score <= -50.0 then Sell
    else if score <= -70.0 then StrongSell
    else Hold
  }

  /** STRONG_SELL is never recommended; every score of -50 or below gives SELL. */
  lemma StrongSellUnreachable(score: real)
    ensures RecommendationOf(score) != StrongSell
    ensures score <= -50.0 ==> RecommendationOf(score) == Sell
    ensures RecommendationOf(score) == Hold <==> -50.0 < score < 50.0
  {
  }

  /** The outcome of the analysis: a warning, or the nine signals. */
  datatype Outcome = InsufficientData | NoSignificantLow | Analysed(signals: seq<Signal>)

  datatype InflectionReport = InflectionReport(currentPrice: real, outcome: Outcome, overall: real,
                                               recommendation: Recommendation)

  /** The frame the analysis reads: the caller's frame with the Ichimoku columns added. */
  function AnalysedTable(cols: Columns, bars: seq<Bar>): (t: Table)
    requires |bars| >= MinBars
    ensures t.bars == bars
  {
    Table(bars, WithIchimoku(cols, bars))
  }

  /** `days_since_low` for a row p of the last 88 rows: the low's position in the whole
      frame is |bars| - 88 + p. */
  function DaysSinceLow(n: nat, p: nat): int
    requires n >= MinBars
  {
    n - (n - MinBars + p) - 1
  }

  /** The price reported: the last close, or 0 for an empty frame. */
  function CurrentPrice(bars: seq<Bar>): real
  {
    if |bars| > 0 then bars[|bars| - 1].close else 0.0
  }

  /** The analysis of a frame that has the Ichimoku columns and at least 88 rows: the
      latest significant low of the last 88 rows dates the checkpoints, and the nine
      signals are scored at the last row. */
  function TableAnalysis(t: Table): (r: InflectionReport)
    requires HasIchimoku(t) && PositivePrices(t.bars) && |t.bars| >= MinBars
    ensures r.currentPrice == CurrentPrice(t.bars)
  {
    var lows := FindSignificantLows(TailTable(t, MinBars));
    if |lows| == 0 then InflectionReport(CurrentPrice(t.bars), NoSignificantLow, 0.0, Hold)
    else
      SignalReport(CurrentPrice(t.bars), Signals(LastRowsOf(t, |t.bars| - 1), DaysSinceLow(|t.bars|, lows[|lows| - 1])))
  }

  /** The report of a scored frame: the signals, their overall score and its recommendation. */
  function SignalReport(price: real, s: seq<Signal>): (r: InflectionReport)
  {
    InflectionReport(price, Analysed(s), OverallScore(s), RecommendationOf(OverallScore(s)))
  }

  /** What `analyze_inflection_signals(df)` returns for a frame with columns `cols`. */
  function InflectionAnalysis(cols: Columns, bars: seq<Bar>): (r: InflectionReport)
    requires Aligned(Table(bars, cols)) && PositivePrices(bars)
    ensures r.currentPrice == CurrentPrice(bars)
    ensures |bars| < MinBars ==> r.outcome == InsufficientData && r.overall == 0.0 && r.recommendation == Hold
  {
    if |bars| < MinBars then InflectionReport(CurrentPrice(bars), InsufficientData, 0.0, Hold)
    else TableAnalysis(AnalysedTable(cols, bars))
  }

  /** `analyze_inflection_signals(df)`: the Ichimoku columns are added to the caller's
      frame, and the nine checkpoints are scored in order, summing the active strengths
      and counting the active days. */
  method AnalyzeInflectionSignals(df: Frame) returns (r: InflectionReport)
    requires df.Valid() && PositivePrices(df.bars)
    modifies df
    ensures df.Valid() && df.bars == old(df.bars)
    ensures df.cols == (if |df.bars| < MinBars then old(df.cols) else WithIchimoku(old(df.cols), df.bars))
    ensures r == InflectionAnalysis(old(df.cols), df.bars)
  {
    if |df.bars| < MinBars {
      var price := if |df.bars| > 0 then df.bars[|df.bars| - 1].close else 0.0;
      return InflectionReport(price, InsufficientData, 0.0, Hold);
    }
    CalculateIchimokuIndicators(df);
    var t := df.Value();
    assert t == AnalysedTable(old(df.cols), df.bars);
    r := AnalyzeTable(t);
  }

  /** The body of `analyze_inflection_signals` after the Ichimoku columns are added. */
  method AnalyzeTable(t: Table) returns (r: InflectionReport)
    requires HasIchimoku(t) && PositivePrices(t.bars) && |t.bars| >= MinBars
    ensures r == TableAnalysis(t)
  {
    var price := t.bars[|t.bars| - 1].close;
    var recent := TailTable(t, MinBars);
    var lows := FindSignificantLows(recent);
    if |lows| == 0 {
      return InflectionReport(price, NoSignificantLow, 0.0, Hold);
    }
    var days := DaysSinceLow(|t.bars|, lows[|lows| - 1]);
    var v := LastRowsOf(t, |t.bars| - 1);
    r := ScoreSignals(price, v, days);
  }

  /** Scoring the nine checkpoints and averaging the active strengths. */
  method ScoreSignals(price: real, v: LastRows, days: int) returns (r: InflectionReport)
    requires Readable(v)
    ensures r == SignalReport(price, Signals(v, days))
  {
    var signals, total, active := ScoreCheckpoints(v, days, InflectionPoints);
    var overall := if active > 0 then total as real / active as real else 0.0;
    r := InflectionReport(price, Analysed(signals), overall, RecommendationOf(overall));
  }

  /** The `for inflection_day in self.inflection_points` loop: each day is analysed in
      turn, and the strengths of the active days are summed and counted. */
  method ScoreCheckpoints(v: LastRows, days: int, points: seq<nat>) returns (signals: seq<Signal>, total: int, active: nat)
    requires Readable(v)
    ensures signals == SignalsOver(v, days, points)
    ensures total == ActiveTotal(signals) && active == ActiveCount(signals)
  {
    signals, total, active := [], 0, 0;
    for k := 0 to |points|
      invariant |signals| == k && forall j :: 0 <= j < k ==> signals[j] == SingleSignal(v, days, points[j])
      invariant total == ActiveTotal(signals) && active == ActiveCount(signals)
    {
      var signal := AnalyzeSingleInflection(v, days, points[k]);
      assert (signals + [signal])[..k] == signals;
      signals := signals + [signal];
      if signal.status == Active {
        total := total + signal.strength;
        active := active + 1;
      }
    }
    assert signals == SignalsOver(v, days, points);
  }

  // ---------------------------------------------------------------- properties of the analysis

  /** The last row found is significant, and no later row is. */
  lemma LatestSignificantLow(t: Table)
    requires Aligned(t)
    ensures var lows := FindSignificantLows(t);
            |lows| > 0 ==>
              IsSignificant(t, LowWindow, LowPoint, lows[|lows| - 1]) &&
              forall p :: lows[|lows| - 1] < p < |t.bars| ==> !IsSignificant(t, LowWindow, LowPoint, p)
  {
    var lows := FindSignificantLows(t);
    if |lows| > 0 {
      FindSignificantLowsSpec(t);
      forall p | lows[|lows| - 1] < p < |t.bars|
        ensures !IsSignificant(t, LowWindow, LowPoint, p)
      {
        BeyondLastNotIn(lows, p);
      }
    }
  }

  /** The chosen low is the latest significant low of the last 88 rows. */
  lemma ChosenLowIsLatest(cols: Columns, bars: seq<Bar>)
    requires Aligned(Table(bars, cols)) && |bars| >= MinBars
    ensures var recent := TailTable(AnalysedTable(cols, bars), MinBars);
            var lows := FindSignificantLows(recent);
            |lows| > 0 ==>
              IsSignificant(recent, LowWindow, LowPoint, lows[|lows| - 1]) &&
              forall p :: lows[|lows| - 1] < p < |recent.bars| ==> !IsSignificant(recent, LowWindow, LowPoint, p)
  {
    LatestSignificantLow(TailTable(AnalysedTable(cols, bars), MinBars));
  }

  /** The lagging span leaves its last 26 rows undefined and `dropna` drops them, while
      the centred window needs ten rows before the low: the low found is between 26 and
      77 days old. */
  lemma DaysSinceLowRange(cols: Columns, bars: seq<Bar>)
    requires Aligned(Table(bars, cols)) && |bars| >= MinBars
    ensures var lows := FindSignificantLows(TailTable(AnalysedTable(cols, bars), MinBars));
            |lows| > 0 ==> 26 <= DaysSinceLow(|bars|, lows[|lows| - 1]) <= 77
  {
    var t := AnalysedTable(cols, bars);
    var recent := TailTable(t, MinBars);
    var lows := FindSignificantLows(recent);
    if |lows| > 0 {
      var p := lows[|lows| - 1];
      FindSignificantLowsSpec(recent);
      WithIchimokuLines(cols, bars);
      LagGapExcluded(t, MinBars, LowWindow, LowPoint, p);
      SignificantRowInsideWindow(recent, LowWindow, LowPoint, p);
    }
  }

  /** With a low between 26 and 77 days old, D+9, D+13 and D+88 are not active. */
  lemma OldLowSignals(v: LastRows, days: int)
    requires Readable(v) && 26 <= days <= 77
    ensures var s := Signals(v, days);
            s[0].status != Active && s[1].status != Active && s[8].status != Active
  {
  }

  /** Every rule strength lies in [-60, 100], so the overall score does too. */
  lemma SignalsOverallBounds(v: LastRows, days: int)
    requires Readable(v)
    ensures -60.0 <= OverallScore(Signals(v, days)) <= 100.0
  {
    var s := Signals(v, days);
    forall k | 0 <= k < |s| && s[k].status == Active
      ensures -60 <= s[k].strength <= 100
    {
      RuleStrengthBounds(v, RuleFor(InflectionPoints[k]));
    }
    OverallScoreBounds(s, -60, 100);
  }

  /** Along `analyze_inflection_signals`, D+9, D+13 and D+88 are never active, and the
      overall score lies in [-60, 100]. */
  lemma NeverActiveDays(cols: Columns, bars: seq<Bar>)
    requires Aligned(Table(bars, cols)) && PositivePrices(bars)
    ensures var r := InflectionAnalysis(cols, bars);
            r.outcome.Analysed? ==>
              |r.outcome.signals| == 9 && r.outcome.signals[0].status != Active &&
              r.outcome.signals[1].status != Active && r.outcome.signals[8].status != Active
    ensures -60.0 <= InflectionAnalysis(cols, bars).overall <= 100.0
  {
    if |bars| >= MinBars {
      var t := AnalysedTable(cols, bars);
      var lows := FindSignificantLows(TailTable(t, MinBars));
      if |lows| > 0 {
        var days := DaysSinceLow(|bars|, lows[|lows| - 1]);
        DaysSinceLowRange(cols, bars);
        var v := LastRowsOf(t, |bars| - 1);
        OldLowSignals(v, days);
        SignalsOverallBounds(v, days);
        assert InflectionAnalysis(cols, bars).outcome == Analysed(Signals(v, days));
      }
    }
  }

  // ---------------------------------------------------------------- technical indicators

  /** The columns `calculate_technical_indicators` assigns. */
  function EnhancedIndicatorNames(): set<Col>
  {
    {Sma(5), Sma(20), Sma(60), Rsi, Macd, MacdSignal, MacdHist, MomentumLag(5), MomentumLag(20),
     BbMiddle, BbUpper, BbLower, BbPosition}
  }

  /** Element-wise difference of two equally long series. */
  function Minus(a: seq<real>, b: seq<real>): (r: seq<real>)
    requires |a| == |b|
    ensures |r| == |a| && forall i :: 0 <= i < |a| ==> r[i] == a[i] - b[i]
  {
    seq(|a|, i requires 0 <= i < |a| => a[i] - b[i])
  }

  /** The indicator values of `calculate_technical_indicators`, before `fillna`. */
  datatype EnhancedValues = EnhancedValues(
    sma5: Column, sma20: Column, sma60: Column, rsi: Column,
    macd: Column, signal: Column, hist: Column, momentum5: Column, momentum20: Column,
    middle: Column, upper: Column, lower: Column, position: Column)

  /** Every value column is n rows long. */
  predicate ValuesOfLength(v: EnhancedValues, n: nat)
  {
    |v.sma5| == n && |v.sma20| == n && |v.sma60| == n && |v.rsi| == n && |v.macd| == n &&
    |v.signal| == n && |v.hist| == n && |v.momentum5| == n && |v.momentum20| == n &&
    |v.middle| == n && |v.upper| == n && |v.lower| == n && |v.position| == n
  }

  /** The values computed from the closes: rolling means, the epsilon-free RSI, the MACD
      line, signal and histogram on pandas' default `adjust=True` EMA, 5- and 20-day
      momentum, and the 20-day two-deviation Bollinger bands with the position in them. */
  function EnhancedValuesOf(bars: seq<Bar>, sqrt: real -> real): (v: EnhancedValues)
    requires PositivePrices(bars) && NonNegativeRoot(sqrt)
    ensures ValuesOfLength(v, |bars|)
  {
    var xs := Closes(bars);
    PositiveCloses(bars);
    var macd := Minus(AdjustedEma(xs, 12), AdjustedEma(xs, 26));
    var signal := AdjustedEma(macd, 9);
    var b := BollingerBands(xs, 20, 2.0, sqrt);
    EnhancedValues(SmaColumn(xs, 5), SmaColumn(xs, 20), SmaColumn(xs, 60), RsiNoEpsilonColumn(xs, 14),
                   Defined(macd), Defined(signal), Defined(Minus(macd, signal)),
                   MomentumColumn(xs, 5), MomentumColumn(xs, 20),
                   b.middle, b.upper, b.lower, BandPositions(xs, b))
  }

  /** The columns after the assignments, in the source's order. */
  function AssignEnhanced(cols: Columns, v: EnhancedValues): (r: Columns)
    ensures r.Keys == cols.Keys + EnhancedIndicatorNames()
    ensures forall c :: c in cols && c !in EnhancedIndicatorNames() ==> r[c] == cols[c]
  {
    cols[Sma(5) := v.sma5][Sma(20) := v.sma20][Sma(60) := v.sma60][Rsi := v.rsi]
        [Macd := v.macd][MacdSignal := v.signal][MacdHist := v.hist]
        [MomentumLag(5) := v.momentum5][MomentumLag(20) := v.momentum20]
        [BbMiddle := v.middle][BbUpper := v.upper][BbLower := v.lower][BbPosition := v.position]
  }

  /** The frame's columns after `calculate_technical_indicators`. */
  function EnhancedColumns(cols: Columns, bars: seq<Bar>, sqrt: real -> real): Columns
    requires PositivePrices(bars) && NonNegativeRoot(sqrt)
  {
    FillNa(AssignEnhanced(cols, EnhancedValuesOf(bars, sqrt)), 0.0)
  }

  /** Assigning columns of the frame's length keeps the frame aligned, and after `fillna`
      every assigned column is present and no cell is undefined. */
  lemma AssignEnhancedComplete(cols: Columns, v: EnhancedValues, n: nat)
    requires forall c :: c in cols ==> |cols[c]| == n
    requires ValuesOfLength(v, n)
    ensures var r := FillNa(AssignEnhanced(cols, v), 0.0);
            EnhancedIndicatorNames() <= r.Keys &&
            (forall c :: c in r ==> |r[c]| == n) &&
            forall c, i :: c in r && 0 <= i < n ==> r[c][i].Some?
  {
    var a := AssignEnhanced(cols, v);
    assert forall c :: c in a ==> |a[c]| == n;
  }

  /** After `calculate_technical_indicators` every listed column is present, the frame is
      aligned and no cell is undefined. */
  lemma EnhancedColumnsComplete(cols: Columns, bars: seq<Bar>, sqrt: real -> real)
    requires Aligned(Table(bars, cols)) && PositivePrices(bars) && NonNegativeRoot(sqrt)
    ensures EnhancedIndicatorNames() <= EnhancedColumns(cols, bars, sqrt).Keys
    ensures Aligned(Table(bars, EnhancedColumns(cols, bars, sqrt)))
    ensures forall c, i :: c in EnhancedColumns(cols, bars, sqrt) && 0 <= i < |bars| ==>
              EnhancedColumns(cols, bars, sqrt)[c][i].Some?
  {
    AssignEnhancedComplete(cols, EnhancedValuesOf(bars, sqrt), |bars|);
  }

  /** `calculate_technical_indicators(df)`: each column assigned in turn, then
      `fillna(0, inplace=True)`. */
  method CalculateTechnicalIndicators(df: Frame, sqrt: real -> real)
    requires df.Valid() && PositivePrices(df.bars) && NonNegativeRoot(sqrt)
    modifies df
    ensures df.Valid() && df.bars == old(df.bars)
    ensures df.cols == EnhancedColumns(old(df.cols), df.bars, sqrt)
  {
    var v := EnhancedValuesOf(df.bars, sqrt);
    df.SetColumn(Sma(5), v.sma5);
    df.SetColumn(Sma(20), v.sma20);
    df.SetColumn(Sma(60), v.sma60);
    df.SetColumn(Rsi, v.rsi);
    df.SetColumn(Macd, v.macd);
    df.SetColumn(MacdSignal, v.signal);
    df.SetColumn(MacdHist, v.hist);
    df.SetColumn(MomentumLag(5), v.momentum5);
    df.SetColumn(MomentumLag(20), v.momentum20);
    df.SetColumn(BbMiddle, v.middle);
    df.SetColumn(BbUpper, v.upper);
    df.SetColumn(BbLower, v.lower);
    df.SetColumn(BbPosition, v.position);
    df.FillNaInPlace(0.0);
  }

  /** On a flat price series the MACD line, its signal and the histogram are all 0. */
  lemma FlatMacdIsZero(bars: seq<Bar>, sqrt: real -> real, c: real)
    requires PositivePrices(bars) && NonNegativeRoot(sqrt)
    requires forall i :: 0 <= i < |bars| ==> bars[i].close == c
    ensures var v := EnhancedValuesOf(bars, sqrt);
            forall i :: 0 <= i < |bars| ==> v.macd[i] == Some(0.0) && v.signal[i] == Some(0.0) && v.hist[i] == Some(0.0)
  {
    var xs := Closes(bars);
    var macd := Minus(AdjustedEma(xs, 12), AdjustedEma(xs, 26));
    forall i | 0 <= i < |bars|
      ensures macd[i] == 0.0
    {
      AdjustedEmaBetween(xs, 1.0 - Alpha(12), i, c, c);
      AdjustedEmaBetween(xs, 1.0 - Alpha(26), i, c, c);
    }
    forall i | 0 <= i < |bars|
      ensures AdjustedEma(macd, 9)[i] == 0.0
    {
      AdjustedEmaBetween(macd, 1.0 - Alpha(9), i, 0.0, 0.0);
    }
  }

  // ---------------------------------------------------------------- combining with the ML score

  datatype Confidence = Low | Medium | High

  /** `normalized_ml * 0.6 + inflection * 0.4`, with `normalized_ml = (ml - 50) * 2`
      (`round(..., 2)` is not modelled). */
  function CombinedScore(ml: real, inflection: real): real
  {
    (ml - 50.0) * 2.0 * 0.6 + inflection * 0.4
  }

  /** An ML score in [0, 100] and an inflection score in [-100, 100] give a combined
      score in [-100, 100]. */
  lemma CombinedScoreRange(ml: real, inflection: real)
    requires 0.0 <= ml <= 100.0 && -100.0 <= inflection <= 100.0
    ensures -100.0 <= CombinedScore(ml, inflection) <= 100.0
  {
  }

  /** The threshold chain of `combine_ml_and_inflection`, as written: the `<= -30` branch
      comes before the `<= -60` one. */
  function FinalRecommendationAsWritten(score: real): (r: (Recommendation, Confidence))
    ensures r.0 != StrongSell
  {
    if score >= 60.0 then (StrongBuy, High)
    else if score >= 30.0 then (Buy, Medium)
    else if score <= -30.0 then (Sell, Medium)
    else if score <= -60.0 then (StrongSell, High)
    else (Hold, Low)
  }

  /** As written, STRONG_SELL is never returned. */
  lemma FinalStrongSellUnreachable(score: real)
    ensures FinalRecommendationAsWritten(score).0 != StrongSell
    ensures score <= -30.0 ==> FinalRecommendationAsWritten(score) == (Sell, Medium)
  {
  }

  /** An ML score of 0 with an inflection score of -50 (both in range) combine to -80,
      a strong sell by the thresholds, but the chain answers SELL. */
  lemma FinalStrongSellWitness()
    ensures CombinedScore(0.0, -50.0) == -80.0
    ensures FinalRecommendationAsWritten(CombinedScore(0.0, -50.0)) == (Sell, Medium)
  {
  }

  /** The chain with the -60 test before the -30 test. */
  function FinalRecommendation(score: real): (r: (Recommendation, Confidence))
    ensures r.0 == StrongSell <==> score <= -60.0
    ensures r.0 == Sell <==> -60.0 < score <= -30.0
    ensures r.0 == Hold <==> -30.0 < score < 30.0
    ensures r.0 == Buy <==> 30.0 <= score < 60.0
    ensures r.0 == StrongBuy <==> score >= 60.0
  {
    if score >= 60.0 then (StrongBuy, High)
    else if score >= 30.0 then (Buy, Medium)
    else if score <= -60.0 then (StrongSell, High)
    else if score <= -30.0 then (Sell, Medium)
    else (Hold, Low)
  }

  /** The corrected chain agrees with the one written everywhere except below -60. */
  lemma FinalRecommendationAgrees(score: real)
    ensures score > -60.0 ==> FinalRecommendation(score) == FinalRecommendationAsWritten(score)
    ensures score <= -60.0 ==> FinalRecommendation(score) == (StrongSell, High)
  {
  }

  datatype Combined = Combined(score: real, recommendation: Recommendation, confidence: Confidence)

  /** `combine_ml_and_inflection` as written (the reason texts are not modelled): the
      score is the weighted combination, and the decision follows the chain as written, so
      every score at or below -30, a strong sell included, is answered (SELL, MEDIUM). */
  function CombineMlAndInflection(ml: real, inflection: real): (r: Combined)
    ensures r.score == CombinedScore(ml, inflection)
    ensures r.recommendation != StrongSell
    ensures r.score <= -30.0 ==> (r.recommendation, r.confidence) == (Sell, Medium)
    ensures r.recommendation == StrongBuy <==> r.score >= 60.0
    ensures r.recommendation == Buy <==> 30.0 <= r.score < 60.0
    ensures r.recommendation == Sell <==> r.score <= -30.0
    ensures r.recommendation == Hold <==> -30.0 < r.score < 30.0
  {
    var score := CombinedScore(ml, inflection);
    var (rec, conf) := FinalRecommendationAsWritten(score);
    FinalStrongSellUnreachable(score);
    Combined(score, rec, conf)
  }

  /** The combiner with the corrected threshold chain, the one the thresholds intend. */
  function CombineMlAndInflectionCorrected(ml: real, inflection: real): (r: Combined)
    ensures r.score == CombinedScore(ml, inflection)
    ensures (r.recommendation, r.confidence) == FinalRecommendation(r.score)
    ensures r.score > -60.0 ==> r == CombineMlAndInflection(ml, inflection)
  {
    var score := CombinedScore(ml, inflection);
    var (rec, conf) := FinalRecommendation(score);
    FinalRecommendationAgrees(score);
    Combined(score, rec, conf)
  }

  /** Fed by the engine, whose overall score never drops below -60, the combiner as written
      yields scores in [-84, 100]; STRONG_SELL never comes, and SELL comes exactly from -30
      down, the reachable range [-84, -60] included. */
  lemma CombinedOfEngineAsWritten(ml: real, cols: Columns, bars: seq<Bar>)
    requires 0.0 <= ml <= 100.0 && Aligned(Table(bars, cols)) && PositivePrices(bars)
    ensures var c := CombineMlAndInflection(ml, InflectionAnalysis(cols, bars).overall);
            -84.0 <= c.score <= 100.0 && c.recommendation != StrongSell
            && (c.recommendation == Sell <==> c.score <= -30.0)
  {
    NeverActiveDays(cols, bars);
  }

  /** With the corrected chain, the engine-fed combiner answers STRONG_SELL exactly from
      -60 down. */
  lemma CombinedOfEngine(ml: real, cols: Columns, bars: seq<Bar>)
    requires 0.0 <= ml <= 100.0 && Aligned(Table(bars, cols)) && PositivePrices(bars)
    ensures var c := CombineMlAndInflectionCorrected(ml, InflectionAnalysis(cols, bars).overall);
            -84.0 <= c.score <= 100.0 && (c.recommendation == StrongSell <==> c.score <= -60.0)
  {
    NeverActiveDays(cols, bars);
  }
}
