/** The inflection-day engine of ichimoku_inflection_analysis.py: the Ichimoku columns
    assigned to the frame, swing lows and highs by the centred 20-bar rolling extreme,
    a status for each of the nine inflection days with a tolerance of three days, a
    rule strength for an active day and a result strength for a passed one, and the
    60/40 blend of the machine-learning score with the mean active strength. */
module IchimokuAnalysis {
  import opened Series
  import opened Frames
  import opened IchimokuLines

  /** `self.inflection_points`: the checkpoints, in days after the low. */
  const InflectionPoints: seq<nat> := [9, 13, 26, 33, 42, 51, 65, 77, 88]
  /** Rows `calculate_inflection_signals` needs, and the rows searched for the low. */
  const MinBars: nat := 88
  /** `rolling(window=20, center=True)` in `find_significant_points`. */
  const PointWindow: nat := 20
  /** An inflection day is active within this many days either side. */
  const Tolerance: nat := 3

  // ---------------------------------------------------------------- columns and points

  /** `calculate_ichimoku_indicators(df)`: the five lines are assigned to the frame,
      whatever its length. */
  method CalculateIchimokuIndicators(df: Frame)
    requires df.Valid()
    modifies df
    ensures df.Valid() && df.bars == old(df.bars)
    ensures df.cols == WithIchimoku(old(df.cols), df.bars)
  {
    df.SetColumn(Tenkan, TenkanLine(df.bars));
    df.SetColumn(Kijun, KijunLine(df.bars));
    df.SetColumn(SpanA, SpanALine(df.bars));
    df.SetColumn(SpanB, SpanBLine(df.bars));
    df.SetColumn(Chikou, ChikouLine(df.bars));
  }

  /** `find_significant_points(df, point_type)`: the rows whose low (high) equals the
      centred 20-bar rolling minimum (maximum) and that have no undefined cell, in row
      order. */
  function FindSignificantPoints(t: Table, kind: PointKind): (r: seq<nat>)
    requires Aligned(t)
    ensures forall i :: 0 <= i < |r| ==> r[i] < |t.bars|
  {
    SignificantRows(t, PointWindow, kind, |t.bars|)
  }

  /** Each row found is significant, every significant row is found, and the rows come
      in increasing order. */
  lemma FindSignificantPointsSpec(t: Table, kind: PointKind)
    requires Aligned(t)
    ensures var r := FindSignificantPoints(t, kind);
            forall i :: 0 <= i < |r| ==> IsSignificant(t, PointWindow, kind, r[i])
    ensures var r := FindSignificantPoints(t, kind);
            forall p :: 0 <= p < |t.bars| && IsSignificant(t, PointWindow, kind, p) ==> p in r
    ensures var r := FindSignificantPoints(t, kind);
            forall i, j :: 0 <= i < j < |r| ==> r[i] < r[j]
  {
    SignificantRowsSound(t, PointWindow, kind, |t.bars|);
    SignificantRowsComplete(t, PointWindow, kind, |t.bars|);
    SignificantRowsSorted(t, PointWindow, kind, |t.bars|);
  }

  /** A low found is the lowest low of its window and a high found the highest high. */
  lemma SignificantPointsAreExtremes(t: Table, kind: PointKind, i: nat)
    requires Aligned(t) && i < |FindSignificantPoints(t, kind)|
    ensures var p := FindSignificantPoints(t, kind)[i];
            kind == LowPoint ==>
              forall j :: CentredStart(p, PointWindow) <= j <= CentredEnd(p, PointWindow) && 0 <= j < |t.bars| ==>
                t.bars[p].low <= t.bars[j].low
    ensures var p := FindSignificantPoints(t, kind)[i];
            kind == HighPoint ==>
              forall j :: CentredStart(p, PointWindow) <= j <= CentredEnd(p, PointWindow) && 0 <= j < |t.bars| ==>
                t.bars[j].high <= t.bars[p].high
  {
    FindSignificantPointsSpec(t, kind);
    var p := FindSignificantPoints(t, kind)[i];
    match kind
    case LowPoint => SignificantLowIsWindowMinimum(t, PointWindow, p);
    case HighPoint => SignificantHighIsWindowMaximum(t, PointWindow, p);
  }

  // ---------------------------------------------------------------- what the rules read

  /** The frame a rule reads: it has the Ichimoku columns and at least 88 rows, and the
      rules look at its last row. */
  predicate RuleContext(t: Table, idx: nat)
  {
    HasIchimoku(t) && PositivePrices(t.bars) && |t.bars| >= MinBars && idx == |t.bars| - 1
  }

  /** The cells the rules read at the last row `idx` and a few rows back (`k` rows back
      is written `...Back<k>`), and the maxima and means of the last rows. */
  datatype LastRows = LastRows(
    idx: nat, close: real, closeBack5: real, closeBack10: real, closeBack26: real,
    tenkan: Option<real>, kijun: Option<real>, tenkanBack1: Option<real>, kijunBack1: Option<real>,
    tenkanBack26: Option<real>, spanA: Option<real>, spanB: Option<real>, spanBBack5: Option<real>,
    spanABack26: Option<real>, spanBBack26: Option<real>,
    closeMax26: real, closeMax60: real, high5: real,
    volume: real, volumeMean10: real, volumeMean20: real)

  /** What the frame guarantees of the values read: positive earlier closes, and 26- and
      60-day closing maxima that include the last close. */
  predicate Readable(v: LastRows)
  {
    v.closeBack5 > 0.0 && v.closeBack10 > 0.0 && v.close <= v.closeMax26 && v.close <= v.closeMax60
  }

  /** Reading the last rows of a rule's frame. */
  function LastRowsOf(t: Table, idx: nat): (v: LastRows)
    requires RuleContext(t, idx)
    ensures v.idx == idx && Readable(v)
  {
    var highs, volumes := Highs(t.bars), Volumes(t.bars);
    LastRows(idx, t.bars[idx].close, t.bars[idx - 5].close, t.bars[idx - 10].close, t.bars[idx - 26].close,
             t.cols[Tenkan][idx], t.cols[Kijun][idx], t.cols[Tenkan][idx - 1], t.cols[Kijun][idx - 1],
             t.cols[Tenkan][idx - 26], t.cols[SpanA][idx], t.cols[SpanB][idx], t.cols[SpanB][idx - 5],
             t.cols[SpanA][idx - 26], t.cols[SpanB][idx - 26],
             ClosingHigh(t.bars, 26), ClosingHigh(t.bars, 60), Max(Tail(highs, 5)),
             t.bars[idx].volume as real, Mean(Tail(volumes, 10)), Mean(Tail(volumes, 20)))
  }


  /** `df['close'].tail(n).max()`: at least the last close, and equal to it exactly
      when no close of the last n rows is higher, which is what the equality tests of
      D+26 and D+42 ask. */
  function ClosingHigh(bars: seq<Bar>, n: nat): (m: real)
    requires 0 < n <= |bars|
    ensures bars[|bars| - 1].close <= m
    ensures bars[|bars| - 1].close == m <==> forall j :: |bars| - n <= j < |bars| ==> bars[j].close <= bars[|bars| - 1].close
  {
    var closes := Closes(bars);
    TailMaxCoversLast(closes, n);
    TailMaxIsLast(closes, n);
    Max(Tail(closes, n))
  }

  // ---------------------------------------------------------------- D+13

  /** The conversion line crosses above the base line at the last row. */
  predicate GoldenCross(v: LastRows)
  {
    v.idx >= 1 && Gt(v.tenkan, v.kijun) && Le(v.tenkanBack1, v.kijunBack1)
  }

  /** The close 26 rows back is above the conversion line of that row. */
  predicate LaggingAboveConversion(v: LastRows)
  {
    v.idx >= 26 && Gt(Some(v.closeBack26), v.tenkanBack26)
  }

  /** The D+13 strength as the sum of its three bonuses, capped at 100. */
  function Rule13Strength(v: LastRows): (r: int)
    ensures 0 <= r <= 100
  {
    MinInt(Bonus(GoldenCross(v), 30) + Bonus(LaggingAboveConversion(v), 20) + Bonus(v.close > v.closeBack5, 15), 100)
  }

  /** `analyze_13_inflection` */
  method AnalyzeRule13(v: LastRows) returns (strength: int)
    ensures strength == Rule13Strength(v)
  {
    strength := 0;
    if v.idx >= 1 {
      if Gt(v.tenkan, v.kijun) && Le(v.tenkanBack1, v.kijunBack1) {
        strength := strength + 30;
      }
    }
    if v.idx >= 26 {
      if Gt(Some(v.closeBack26), v.tenkanBack26) {
        strength := strength + 20;
      }
    }
    if v.close > v.closeBack5 {
      strength := strength + 15;
    }
    strength := MinInt(strength, 100);
  }

  /** The cap never bites: the D+13 strength lies in [0, 65] and reaches 65 exactly when
      all three signals are present. */
  lemma Rule13Range(v: LastRows)
    ensures 0 <= Rule13Strength(v) <= 65
    ensures Rule13Strength(v) == 65 <==> GoldenCross(v) && LaggingAboveConversion(v) && v.close > v.closeBack5
  {
  }

  // ---------------------------------------------------------------- D+26

  /** The close is above both leading spans. */
  predicate AboveCloud(v: LastRows)
  {
    v.idx >= 26 && Gt(Some(v.close), v.spanA) && Gt(Some(v.close), v.spanB)
  }

  function Rule26Strength(v: LastRows): (r: int)
    ensures 0 <= r <= 100
  {
    MinInt(Bonus(AboveCloud(v), 40) + Bonus(v.close == v.closeMax26, 30) + Bonus(Gt(v.spanA, v.spanB), 30), 100)
  }

  /** `analyze_26_inflection` */
  method AnalyzeRule26(v: LastRows) returns (strength: int)
    ensures strength == Rule26Strength(v)
  {
    strength := 0;
    var price := v.close;
    if v.idx >= 26 && Gt(Some(price), v.spanA) && Gt(Some(price), v.spanB) {
      strength := strength + 40;
    }
    if price == v.closeMax26 {
      strength := strength + 30;
    }
    if Gt(v.spanA, v.spanB) {
      strength := strength + 30;
    }
    strength := MinInt(strength, 100);
  }

  /** The D+26 strength lies in [0, 100]; it is 100 exactly when all three signals are
      present, and without a 26-day closing high it is at most 70. */
  lemma Rule26Range(v: LastRows)
    ensures 0 <= Rule26Strength(v) <= 100
    ensures Rule26Strength(v) == 100 <==> AboveCloud(v) && v.close == v.closeMax26 && Gt(v.spanA, v.spanB)
    ensures v.close != v.closeMax26 ==> Rule26Strength(v) <= 70
  {
  }

  // ---------------------------------------------------------------- D+42

  /** The lagging leading span B rose over the last five rows. */
  predicate SpanBRising(v: LastRows)
  {
    v.idx >= 1 && Gt(v.spanB, v.spanBBack5)
  }

  function Rule42Strength(v: LastRows): (r: int)
    ensures 0 <= r <= 100
  {
    MinInt(Bonus(v.close == v.closeMax60, 50) + Bonus(SpanBRising(v), 30) + Bonus(v.volume > v.volumeMean10, 20), 100)
  }

  /** `analyze_42_inflection` */
  method AnalyzeRule42(v: LastRows) returns (strength: int)
    ensures strength == Rule42Strength(v)
  {
    strength := 0;
    var price := v.close;
    if price == v.closeMax60 {
      strength := strength + 50;
    }
    if v.idx >= 1 && Gt(v.spanB, v.spanBBack5) {
      strength := strength + 30;
    }
    if v.volume > v.volumeMean10 {
      strength := strength + 20;
    }
    strength := MinInt(strength, 100);
  }

  /** The D+42 strength lies in [0, 100]; it is 100 exactly when all three signals are
      present, and without a 60-day closing high it is at most 50. */
  lemma Rule42Range(v: LastRows)
    ensures 0 <= Rule42Strength(v) <= 100
    ensures Rule42Strength(v) == 100 <==> v.close == v.closeMax60 && SpanBRising(v) && v.volume > v.volumeMean10
    ensures v.close != v.closeMax60 ==> Rule42Strength(v) <= 50
  {
  }

  // ---------------------------------------------------------------- D+51

  /** The cloud is thicker than 2% of the close (false when a span is undefined). */
  predicate ThickCloud(v: LastRows)
  {
    var thickness := AbsDiff(v.spanA, v.spanB);
    thickness.Some? && thickness.value > v.close * 0.02
  }

  /** The close 26 rows back is above Python's `max` of the two spans of that row. */
  predicate LaggingAboveCloud(v: LastRows)
  {
    v.idx >= 26 && Gt(Some(v.closeBack26), PyMax(v.spanABack26, v.spanBBack26))
  }

  function Rule51Strength(v: LastRows): (r: int)
    requires v.closeBack10 > 0.0
    ensures 0 <= r <= 100
  {
    MinInt(Bonus(PctChange(v.close, v.closeBack10) > 5.0, 40) + Bonus(ThickCloud(v), 35) + Bonus(LaggingAboveCloud(v), 25), 100)
  }

  /** `analyze_51_inflection` */
  method AnalyzeRule51(v: LastRows) returns (strength: int)
    requires v.closeBack10 > 0.0
    ensures strength == Rule51Strength(v)
  {
    strength := 0;
    var recentTrend := PctChange(v.close, v.closeBack10);
    if recentTrend > 5.0 {
      strength := strength + 40;
    }
    var cloudThickness := AbsDiff(v.spanA, v.spanB);
    if cloudThickness.Some? && cloudThickness.value > v.close * 0.02 {
      strength := strength + 35;
    }
    if v.idx >= 26 && Gt(Some(v.closeBack26), PyMax(v.spanABack26, v.spanBBack26)) {
      strength := strength + 25;
    }
    strength := MinInt(strength, 100);
  }

  /** The D+51 strength lies in [0, 100]; the trend bonus goes to a close more than 5%
      above the close ten rows back. */
  lemma Rule51Range(v: LastRows)
    requires v.closeBack10 > 0.0
    ensures 0 <= Rule51Strength(v) <= 100
    ensures Rule51Strength(v) >= 40 ==> v.close > v.closeBack10 * 1.05 || (ThickCloud(v) && LaggingAboveCloud(v))
    ensures v.close > v.closeBack10 * 1.05 ==> Rule51Strength(v) >= 40
  {
    PctChangeAbove(v.close, v.closeBack10, 5.0);
  }

  // ---------------------------------------------------------------- D+65 and D+77

  /** `max(min(strength, 100), -100)` */
  function Clamp(x: int): int
  {
    MaxInt(MinInt(x, 100), -100)
  }

  /** The major-day strength: -50 below 95% of the 5-day high, otherwise -30 on a volume
      above twice the 20-day mean, otherwise 20; a day other than 65 or 77 scores 0. */
  function MajorStrength(v: LastRows, target: nat): (r: int)
    ensures r == -50 || r == -30 || r == 20 || r == 0
    ensures target != 65 && target != 77 ==> r == 0
  {
    if target == 65 || target == 77 then
      Clamp(if v.close < v.high5 * 0.95 then -50 else if v.volume > v.volumeMean20 * 2.0 then -30 else 20)
    else Clamp(0)
  }

  /** `analyze_major_inflection` */
  method AnalyzeMajorRule(v: LastRows, target: nat) returns (strength: int)
    ensures strength == MajorStrength(v, target)
  {
    strength := 0;
    if target == 65 || target == 77 {
      var recentHigh := v.high5;
      if v.close < recentHigh * 0.95 {
        strength := -50;
      } else {
        var volumeSurge := v.volume > v.volumeMean20 * 2.0;
        if volumeSurge {
          strength := -30;
        } else {
          strength := 20;
        }
      }
    }
    strength := Clamp(strength);
  }

  /** For D+65 and D+77 the major strength is exactly one of -50, -30 and 20, the drop
      below 95% of the 5-day high taking priority over the volume surge. */
  lemma MajorOutcomes(v: LastRows, target: nat)
    requires target == 65 || target == 77
    ensures MajorStrength(v, target) in {-50, -30, 20}
    ensures MajorStrength(v, target) == -50 <==> v.close < v.high5 * 0.95
    ensures MajorStrength(v, target) == -30 <==> !(v.close < v.high5 * 0.95) && v.volume > v.volumeMean20 * 2.0
  {
  }

  // ---------------------------------------------------------------- other days

  function GeneralStrength(v: LastRows): (r: int)
    requires v.closeBack5 > 0.0
    ensures r == 20 || r == 0 || r == -20
  {
    var change := PctChange(v.close, v.closeBack5);
    Clamp(if change > 2.0 then 20 else if change < -2.0 then -20 else 0)
  }

  /** `analyze_general_inflection` */
  method AnalyzeGeneralRule(v: LastRows) returns (strength: int)
    requires v.closeBack5 > 0.0
    ensures strength == GeneralStrength(v)
  {
    strength := 0;
    var priceChange := PctChange(v.close, v.closeBack5);
    if priceChange > 2.0 {
      strength := strength + 20;
    } else if priceChange < -2.0 {
      strength := strength - 20;
    }
    strength := Clamp(strength);
  }

  /** The general strength is exactly one of -20, 0 and 20 by the 2% five-day change. */
  lemma GeneralOutcomes(v: LastRows)
    requires v.closeBack5 > 0.0
    ensures GeneralStrength(v) in {-20, 0, 20}
    ensures GeneralStrength(v) == 20 <==> v.close > v.closeBack5 * 1.02
    ensures GeneralStrength(v) == -20 <==> v.close < v.closeBack5 * 0.98
  {
    PctChangeAbove(v.close, v.closeBack5, 2.0);
    PctChangeBelow(v.close, v.closeBack5, -2.0);
  }

  // ---------------------------------------------------------------- a passed day

  /** The row an inflection day falls on: `low_idx + target_day`, clamped to the last row. */
  function TargetRow(n: nat, lowIdx: nat, target: nat): (r: nat)
    requires lowIdx < n
    ensures r < n
    ensures lowIdx + target < n ==> r == lowIdx + target
    ensures lowIdx + target >= n ==> r == n - 1
  {
    if lowIdx + target <= n - 1 then lowIdx + target else n - 1
  }

  /** `analyze_inflection_result`: 80 when the last close is more than 5% above the
      close of the inflection row, 40 when it is above it, -20 otherwise; the 0 of a row
      outside the frame is never returned. */
  function PassedStrength(closes: seq<real>, lowIdx: nat, target: nat): (r: int)
    requires lowIdx < |closes| && AllPositive(closes)
    ensures r in {80, 40, -20}
    ensures var base := closes[TargetRow(|closes|, lowIdx, target)];
            (r == 80 <==> closes[|closes| - 1] > base * 1.05) &&
            (r == -20 <==> closes[|closes| - 1] <= base)
  {
    var targetIdx := TargetRow(|closes|, lowIdx, target);
    if targetIdx < |closes| then
      var performance := PctChange(closes[|closes| - 1], closes[targetIdx]);
      PctChangeAbove(closes[|closes| - 1], closes[targetIdx], 5.0);
      PctChangeAbove(closes[|closes| - 1], closes[targetIdx], 0.0);
      if performance > 5.0 then 80
      else if performance > 0.0 then 40
      else -20
    else 0
  }

  // ---------------------------------------------------------------- one inflection day

  /** `pending` is the initial status, replaced on every path. */
  datatype Status = Pending | Approaching | Active | Passed

  /** The status of inflection day `target` when the low was `days` days ago. */
  function StatusOf(days: int, target: nat): (s: Status)
    ensures s != Pending
    ensures s == Approaching <==> days < target - Tolerance
    ensures s == Active <==> target - Tolerance <= days <= target + Tolerance
    ensures s == Passed <==> days > target + Tolerance
  {
    if days < target - Tolerance then Approaching
    else if target - Tolerance <= days <= target + Tolerance then Active
    else Passed
  }

  datatype Rule = Rule13 | Rule26 | Rule42 | Rule51 | MajorRule | GeneralRule

  /** The rule an active inflection day is scored by. */
  function RuleFor(target: nat): Rule
  {
    if target == 13 then Rule13
    else if target == 26 then Rule26
    else if target == 42 then Rule42
    else if target == 51 then Rule51
    else if target == 65 || target == 77 then MajorRule
    else GeneralRule
  }

  /** Days 13, 26, 42 and 51 have their own rules, 65 and 77 the major rule, and 9, 33
      and 88 fall through to the general rule. */
  lemma RuleDispatch()
    ensures RuleFor(InflectionPoints[0]) == GeneralRule && RuleFor(InflectionPoints[3]) == GeneralRule
    ensures RuleFor(InflectionPoints[8]) == GeneralRule
    ensures RuleFor(InflectionPoints[1]) == Rule13 && RuleFor(InflectionPoints[2]) == Rule26
    ensures RuleFor(InflectionPoints[4]) == Rule42 && RuleFor(InflectionPoints[5]) == Rule51
    ensures RuleFor(InflectionPoints[6]) == MajorRule && RuleFor(InflectionPoints[7]) == MajorRule
  {
  }

  function RuleStrength(v: LastRows, target: nat): int
    requires Readable(v)
  {
    match RuleFor(target)
    case Rule13 => Rule13Strength(v)
    case Rule26 => Rule26Strength(v)
    case Rule42 => Rule42Strength(v)
    case Rule51 => Rule51Strength(v)
    case MajorRule => MajorStrength(v, target)
    case GeneralRule => GeneralStrength(v)
  }

  /** Every rule's strength lies in [-50, 100]. */
  lemma RuleStrengthBounds(v: LastRows, target: nat)
    requires Readable(v)
    ensures -50 <= RuleStrength(v, target) <= 100
  {
    match RuleFor(target)
    case Rule13 => Rule13Range(v);
    case Rule26 => Rule26Range(v);
    case Rule42 => Rule42Range(v);
    case Rule51 => Rule51Range(v);
    case MajorRule => MajorOutcomes(v, target);
    case GeneralRule => GeneralOutcomes(v);
  }

  /** The rule dispatch of `analyze_inflection_point`. */
  method ApplyRule(v: LastRows, target: nat) returns (strength: int)
    requires Readable(v)
    ensures strength == RuleStrength(v, target)
  {
    if target == 13 {
      strength := AnalyzeRule13(v);
    } else if target == 26 {
      strength := AnalyzeRule26(v);
    } else if target == 42 {
      strength := AnalyzeRule42(v);
    } else if target == 51 {
      strength := AnalyzeRule51(v);
    } else if target == 65 || target == 77 {
      strength := AnalyzeMajorRule(v, target);
    } else {
      strength := AnalyzeGeneralRule(v);
    }
  }

  /** Where the low lies: its row in the frame and the closes of the frame. */
  datatype LowRow = LowRow(closes: seq<real>, lowIdx: nat)

  predicate ValidLow(low: LowRow)
  {
    low.lowIdx < |low.closes| && AllPositive(low.closes)
  }

  /** The result of `analyze_inflection_point` (its recommendation texts are not modelled). */
  datatype Analysis = Analysis(daysSinceLow: int, targetDay: nat, status: Status, strength: int)

  /** What `analyze_inflection_point` returns: 0 when approaching, the rule strength when
      active, the result strength when passed. */
  function PointAnalysis(v: LastRows, low: LowRow, days: int, target: nat): (a: Analysis)
    requires Readable(v) && ValidLow(low)
    ensures a.daysSinceLow == days && a.targetDay == target && a.status == StatusOf(days, target)
    ensures a.status == Approaching ==> a.strength == 0
    ensures a.status == Active ==> a.strength == RuleStrength(v, target)
    ensures a.status == Passed ==> a.strength == PassedStrength(low.closes, low.lowIdx, target)
  {
    var status := StatusOf(days, target);
    Analysis(days, target, status,
             match status
             case Active => RuleStrength(v, target)
             case Passed => PassedStrength(low.closes, low.lowIdx, target)
             case _ => 0)
  }

  /** `analyze_inflection_point` */
  method AnalyzeInflectionPoint(v: LastRows, low: LowRow, days: int, target: nat) returns (a: Analysis)
    requires Readable(v) && ValidLow(low)
    ensures a == PointAnalysis(v, low, days, target)
  {
    a := Analysis(days, target, Pending, 0);
    if days < target - Tolerance {
      a := a.(status := Approaching, strength := 0);
    } else if target - Tolerance <= days <= target + Tolerance {
      a := a.(status := Active);
      var strength := ApplyRule(v, target);
      a := a.(strength := strength);
    } else if days > target + Tolerance {
      a := a.(status := Passed, strength := PassedStrength(low.closes, low.lowIdx, target));
    }
  }

  // ---------------------------------------------------------------- all inflection days

  /** The analyses of the given checkpoints, in order. */
  function AnalysesOver(v: LastRows, low: LowRow, days: int, points: seq<nat>): (r: seq<Analysis>)
    requires Readable(v) && ValidLow(low)
    ensures |r| == |points|
    decreases |points|
  {
    if |points| == 0 then []
    else AnalysesOver(v, low, days, points[..|points| - 1]) + [PointAnalysis(v, low, days, points[|points| - 1])]
  }

  /** The k-th analysis is that of the k-th checkpoint. */
  lemma {:induction false} AnalysesOverAt(v: LastRows, low: LowRow, days: int, points: seq<nat>, k: nat)
    requires Readable(v) && ValidLow(low) && k < |points|
    ensures AnalysesOver(v, low, days, points)[k] == PointAnalysis(v, low, days, points[k])
    decreases |points|
  {
    if k < |points| - 1 {
      var init := points[..|points| - 1];
      AnalysesOverAt(v, low, days, init, k);
      assert init[k] == points[k];
    }
  }

  /** The `for inflection_day in self.inflection_points` loop. */
  method AnalysePoints(v: LastRows, low: LowRow, days: int, points: seq<nat>) returns (analyses: seq<Analysis>)
    requires Readable(v) && ValidLow(low)
    ensures analyses == AnalysesOver(v, low, days, points)
  {
    analyses := [];
    for k := 0 to |points|
      invariant analyses == AnalysesOver(v, low, days, points[..k])
    {
      var a := AnalyzeInflectionPoint(v, low, days, points[k]);
      assert points[..k + 1][..k] == points[..k];
      analyses := analyses + [a];
    }
    assert points[..|points|] == points;
  }

  /** The outcome: a warning for a short frame, or the analyses by inflection day (none
      when no low was found). */
  datatype Outcome = NotEnoughData | Scored(analyses: seq<Analysis>)

  datatype SignalsReport = SignalsReport(currentPrice: real, outcome: Outcome)

  /** The price reported: the last close, or 0 for an empty frame. */
  function CurrentPrice(bars: seq<Bar>): real
  {
    if |bars| > 0 then bars[|bars| - 1].close else 0.0
  }

  /** The frame the analysis reads: the caller's frame with the Ichimoku columns added. */
  function AnalysedTable(cols: Columns, bars: seq<Bar>): (t: Table)
    ensures t.bars == bars
  {
    Table(bars, WithIchimoku(cols, bars))
  }

  /** `days_since_low` for row p of the last 88 rows, which is row |bars| - 88 + p. */
  function DaysSinceLow(n: nat, p: nat): int
    requires n >= MinBars
  {
    n - (n - MinBars + p) - 1
  }

  /** The frame the analysis reads once the Ichimoku columns are added. */
  predicate AnalysisContext(t: Table)
  {
    HasIchimoku(t) && PositivePrices(t.bars) && |t.bars| >= MinBars
  }

  /** Row p of the last 88 rows as the low, with the closes of the whole frame. */
  function LowOf(t: Table, p: nat): (low: LowRow)
    requires AnalysisContext(t) && p < MinBars
    ensures ValidLow(low) && low.lowIdx == |t.bars| - MinBars + p
    ensures low.closes == Closes(t.bars)
  {
    PositiveCloses(t.bars);
    LowRow(Closes(t.bars), |t.bars| - MinBars + p)
  }

  /** The analysis of a frame that has the Ichimoku columns and at least 88 rows. */
  function TableSignals(t: Table): (r: SignalsReport)
    requires AnalysisContext(t)
    ensures r.currentPrice == CurrentPrice(t.bars) && r.outcome.Scored?
  {
    var lows := FindSignificantPoints(TailTable(t, MinBars), LowPoint);
    if |lows| == 0 then SignalsReport(CurrentPrice(t.bars), Scored([]))
    else
      var p := lows[|lows| - 1];
      SignalsReport(CurrentPrice(t.bars),
                    Scored(AnalysesOver(LastRowsOf(t, |t.bars| - 1), LowOf(t, p), DaysSinceLow(|t.bars|, p), InflectionPoints)))
  }

  /** What `calculate_inflection_signals(df)` returns for a frame with columns `cols`. */
  function InflectionSignals(cols: Columns, bars: seq<Bar>): (r: SignalsReport)
    requires Aligned(Table(bars, cols)) && PositivePrices(bars)
    ensures r.currentPrice == CurrentPrice(bars)
    ensures r.outcome == NotEnoughData <==> |bars| < MinBars
  {
    if |bars| < MinBars then SignalsReport(CurrentPrice(bars), NotEnoughData)
    else TableSignals(AnalysedTable(cols, bars))
  }

  /** `calculate_inflection_signals(df)`: a frame of 88 rows or more gets the Ichimoku
      columns in place, and every inflection day is analysed from the latest low. */
  method CalculateInflectionSignals(df: Frame) returns (r: SignalsReport)
    requires df.Valid() && PositivePrices(df.bars)
    modifies df
    ensures df.Valid() && df.bars == old(df.bars)
    ensures df.cols == (if |df.bars| < MinBars then old(df.cols) else WithIchimoku(old(df.cols), df.bars))
    ensures r == InflectionSignals(old(df.cols), df.bars)
  {
    if |df.bars| < MinBars {
      var price := if |df.bars| > 0 then df.bars[|df.bars| - 1].close else 0.0;
      return SignalsReport(price, NotEnoughData);
    }
    CalculateIchimokuIndicators(df);
    var t := df.Value();
    assert t == AnalysedTable(old(df.cols), df.bars);
    r := SignalsOfTable(t);
  }

  /** The body of `calculate_inflection_signals` after the Ichimoku columns are added. */
  method SignalsOfTable(t: Table) returns (r: SignalsReport)
    requires AnalysisContext(t)
    ensures r == TableSignals(t)
  {
    var price := t.bars[|t.bars| - 1].close;
    var lows := FindSignificantPoints(TailTable(t, MinBars), LowPoint);
    if |lows| == 0 {
      return SignalsReport(price, Scored([]));
    }
    var low := LowOf(t, lows[|lows| - 1]);
    var days := |t.bars| - low.lowIdx - 1;
    assert days == DaysSinceLow(|t.bars|, lows[|lows| - 1]);
    var v := LastRowsOf(t, |t.bars| - 1);
    var analyses := AnalysePoints(v, low, days, InflectionPoints);
    r := SignalsReport(price, Scored(analyses));
  }

  // ---------------------------------------------------------------- properties of the analysis

  /** The last low found is significant, and no later row is. */
  lemma LatestSignificantLow(t: Table)
    requires Aligned(t)
    ensures var lows := FindSignificantPoints(t, LowPoint);
            |lows| > 0 ==>
              IsSignificant(t, PointWindow, LowPoint, lows[|lows| - 1]) &&
              forall p :: lows[|lows| - 1] < p < |t.bars| ==> !IsSignificant(t, PointWindow, LowPoint, p)
  {
    var lows := FindSignificantPoints(t, LowPoint);
    if |lows| > 0 {
      FindSignificantPointsSpec(t, LowPoint);
      forall p | lows[|lows| - 1] < p < |t.bars|
        ensures !IsSignificant(t, PointWindow, LowPoint, p)
      {
        BeyondLastNotIn(lows, p);
      }
    }
  }

  /** The chosen low is the latest significant low of the last 88 rows. */
  lemma ChosenLowIsLatest(cols: Columns, bars: seq<Bar>)
    requires Aligned(Table(bars, cols))
    ensures var recent := TailTable(AnalysedTable(cols, bars), MinBars);
            var lows := FindSignificantPoints(recent, LowPoint);
            |lows| > 0 ==>
              IsSignificant(recent, PointWindow, LowPoint, lows[|lows| - 1]) &&
              forall p :: lows[|lows| - 1] < p < |recent.bars| ==> !IsSignificant(recent, PointWindow, LowPoint, p)
  {
    LatestSignificantLow(TailTable(AnalysedTable(cols, bars), MinBars));
  }

  /** `dropna` removes the last 26 rows, whose lagging span is undefined, and the
      centred window needs ten rows before the low: the low is 26 to 77 days old. */
  lemma DaysSinceLowRange(cols: Columns, bars: seq<Bar>)
    requires Aligned(Table(bars, cols)) && |bars| >= MinBars
    ensures var lows := FindSignificantPoints(TailTable(AnalysedTable(cols, bars), MinBars), LowPoint);
            |lows| > 0 ==> 26 <= DaysSinceLow(|bars|, lows[|lows| - 1]) <= 77
  {
    var t := AnalysedTable(cols, bars);
    var lows := FindSignificantPoints(TailTable(t, MinBars), LowPoint);
    if |lows| > 0 {
      WithIchimokuLines(cols, bars);
      FoundRowPlacement(t, MinBars, PointWindow, LowPoint, |lows| - 1);
    }
  }

  /** With a low 26 to 77 days old, D+9 and D+13 have passed and D+88 is still
      approaching. */
  lemma AgedStatuses(v: LastRows, low: LowRow, days: int)
    requires Readable(v) && ValidLow(low) && 26 <= days <= 77
    ensures var s := AnalysesOver(v, low, days, InflectionPoints);
            s[0].status == Passed && s[1].status == Passed && s[8].status == Approaching
  {
    AnalysesOverAt(v, low, days, InflectionPoints, 0);
    AnalysesOverAt(v, low, days, InflectionPoints, 1);
    AnalysesOverAt(v, low, days, InflectionPoints, 8);
  }

  /** Along `calculate_inflection_signals`, D+9 and D+13 are never active: they have
      always passed, and D+88 is always approaching. */
  lemma EarlyDaysNeverActive(cols: Columns, bars: seq<Bar>)
    requires Aligned(Table(bars, cols)) && PositivePrices(bars)
    ensures var r := InflectionSignals(cols, bars);
            r.outcome.Scored? && |r.outcome.analyses| > 0 ==>
              |r.outcome.analyses| == 9 &&
              r.outcome.analyses[0].status == Passed && r.outcome.analyses[1].status == Passed &&
              r.outcome.analyses[8].status == Approaching
  {
    if |bars| >= MinBars {
      var t := AnalysedTable(cols, bars);
      var lows := FindSignificantPoints(TailTable(t, MinBars), LowPoint);
      if |lows| > 0 {
        DaysSinceLowRange(cols, bars);
        var p := lows[|lows| - 1];
        AgedStatuses(LastRowsOf(t, |t.bars| - 1), LowOf(t, p), DaysSinceLow(|t.bars|, p));
      }
    }
  }

  // ---------------------------------------------------------------- combined signal

  /** The strengths of the active analyses, in order. */
  function ActiveStrengths(s: seq<Analysis>): seq<real>
  {
    if |s| == 0 then []
    else ActiveStrengths(s[..|s| - 1]) + (if s[|s| - 1].status == Active then [s[|s| - 1].strength as real] else [])
  }

  /** Exactly the strengths of active analyses are averaged: passed and approaching days
      never count. */
  lemma {:induction false} ActiveStrengthsMembers(s: seq<Analysis>, x: real)
    ensures x in ActiveStrengths(s) <==> exists k :: 0 <= k < |s| && s[k].status == Active && x == s[k].strength as real
    decreases |s|
  {
    if |s| > 0 {
      var init := s[..|s| - 1];
      ActiveStrengthsMembers(init, x);
      assert forall k :: 0 <= k < |init| ==> init[k] == s[k];
      if exists k :: 0 <= k < |s| && s[k].status == Active && x == s[k].strength as real {
        var k :| 0 <= k < |s| && s[k].status == Active && x == s[k].strength as real;
        if k < |init| {
          assert init[k] == s[k];
        }
      }
    }
  }

  /** Active strengths in [lo, hi] give members in [lo, hi]. */
  lemma ActiveStrengthsBounds(s: seq<Analysis>, lo: int, hi: int)
    requires forall k :: 0 <= k < |s| && s[k].status == Active ==> lo <= s[k].strength <= hi
    ensures forall i :: 0 <= i < |ActiveStrengths(s)| ==> lo as real <= ActiveStrengths(s)[i] <= hi as real
  {
    forall i | 0 <= i < |ActiveStrengths(s)|
      ensures lo as real <= ActiveStrengths(s)[i] <= hi as real
    {
      ActiveStrengthsMembers(s, ActiveStrengths(s)[i]);
    }
  }

  /** `inflection_score`: the mean active strength, or 0 when nothing is active. */
  function InflectionScore(o: Outcome): (r: real)
    ensures !o.Scored? || |ActiveStrengths(o.analyses)| == 0 ==> r == 0.0
    ensures o.Scored? && |ActiveStrengths(o.analyses)| > 0 ==>
              r * |ActiveStrengths(o.analyses)| as real == Sum(ActiveStrengths(o.analyses))
  {
    var active := if o.Scored? then ActiveStrengths(o.analyses) else [];
    if |active| > 0 then Mean(active) else 0.0
  }

  /** Every active analysis of the outcome has a strength in [lo, hi]. */
  predicate ActiveWithin(o: Outcome, lo: int, hi: int)
  {
    o.Scored? ==> forall k :: 0 <= k < |o.analyses| && o.analyses[k].status == Active ==>
                    lo <= o.analyses[k].strength <= hi
  }

  /** The inflection score of strengths in [lo, hi], with lo <= 0 <= hi, lies in [lo, hi]. */
  lemma InflectionScoreBounds(o: Outcome, lo: int, hi: int)
    requires lo <= 0 <= hi && ActiveWithin(o, lo, hi)
    ensures lo as real <= InflectionScore(o) <= hi as real
  {
    if o.Scored? {
      ActiveStrengthsBounds(o.analyses, lo, hi);
      if |ActiveStrengths(o.analyses)| > 0 {
        MeanBounds(ActiveStrengths(o.analyses), lo as real, hi as real);
      }
    }
  }

  datatype Action = StrongBuy | Buy | Hold | Sell | StrongSell
  datatype Confidence = Low | Medium | High

  /** The action chain of `generate_combined_signal`, as written: the `<= -50` branch
      comes before the `<= -70` one. */
  function ActionOf(score: real): (r: (Action, Confidence))
    ensures r.0 != StrongSell
  {
    if score >= 70.0 then (StrongBuy, High)
    else if score >= 50.0 then (Buy, Medium)
    else if score <= -50.0 then (Sell, Medium)
    else if score <= -70.0 then (StrongSell, High)
    else (Hold, Low)
  }

  /** STRONG_SELL is never chosen; the other four actions partition the scores. */
  lemma ActionPartition(score: real)
    ensures ActionOf(score).0 != StrongSell
    ensures ActionOf(score) == (StrongBuy, High) <==> score >= 70.0
    ensures ActionOf(score) == (Buy, Medium) <==> 50.0 <= score < 70.0
    ensures ActionOf(score) == (Sell, Medium) <==> score <= -50.0
    ensures ActionOf(score) == (Hold, Low) <==> -50.0 < score < 50.0
  {
  }

  datatype CombinedSignal = CombinedSignal(mlScore: real, inflectionScore: real, combinedScore: real,
                                           action: Action, confidence: Confidence)

  /** `generate_combined_signal`: 60% of the ML score plus 40% of the inflection score,
      with no normalisation of the ML score. */
  function GenerateCombinedSignal(o: Outcome, ml: real): (c: CombinedSignal)
    ensures c.inflectionScore == InflectionScore(o) && c.mlScore == ml
    ensures c.combinedScore == ml * 0.6 + InflectionScore(o) * 0.4
    ensures (c.action, c.confidence) == ActionOf(c.combinedScore)
  {
    var combined := ml * 0.6 + InflectionScore(o) * 0.4;
    var (action, confidence) := ActionOf(combined);
    CombinedSignal(ml, InflectionScore(o), combined, action, confidence)
  }

  /** Every active strength of the analyses from a low lies in [-50, 100]. */
  lemma ActiveStrengthsOver(v: LastRows, low: LowRow, days: int)
    requires Readable(v) && ValidLow(low)
    ensures ActiveWithin(Scored(AnalysesOver(v, low, days, InflectionPoints)), -50, 100)
  {
    var s := AnalysesOver(v, low, days, InflectionPoints);
    forall k | 0 <= k < |s| && s[k].status == Active
      ensures -50 <= s[k].strength <= 100
    {
      AnalysesOverAt(v, low, days, InflectionPoints, k);
      RuleStrengthBounds(v, InflectionPoints[k]);
    }
  }

  /** Every active strength of the analysis lies in [-50, 100]. */
  lemma ActiveStrengthsOfSignals(cols: Columns, bars: seq<Bar>)
    requires Aligned(Table(bars, cols)) && PositivePrices(bars)
    ensures ActiveWithin(InflectionSignals(cols, bars).outcome, -50, 100)
  {
    if |bars| >= MinBars {
      var t := AnalysedTable(cols, bars);
      var lows := FindSignificantPoints(TailTable(t, MinBars), LowPoint);
      if |lows| > 0 {
        var p := lows[|lows| - 1];
        ActiveStrengthsOver(LastRowsOf(t, |t.bars| - 1), LowOf(t, p), DaysSinceLow(|t.bars|, p));
      }
    }
  }

  /** With an ML score in [0, 100] and active strengths in [-50, 100], the combined
      score lies in [-20, 100], so neither SELL nor STRONG_SELL is the action. */
  lemma CombinedBounds(o: Outcome, ml: real)
    requires ActiveWithin(o, -50, 100) && 0.0 <= ml <= 100.0
    ensures var c := GenerateCombinedSignal(o, ml);
            -20.0 <= c.combinedScore <= 100.0 && c.action != Sell && c.action != StrongSell
  {
    InflectionScoreBounds(o, -50, 100);
  }

  /** The same for the outcome of `calculate_inflection_signals`, whatever the frame. */
  lemma CombinedOfAnalysis(cols: Columns, bars: seq<Bar>, ml: real)
    requires Aligned(Table(bars, cols)) && PositivePrices(bars) && 0.0 <= ml <= 100.0
    ensures var c := GenerateCombinedSignal(InflectionSignals(cols, bars).outcome, ml);
            -20.0 <= c.combinedScore <= 100.0 && c.action != Sell && c.action != StrongSell
  {
    ActiveStrengthsOfSignals(cols, bars);
    CombinedBounds(InflectionSignals(cols, bars).outcome, ml);
  }
}
