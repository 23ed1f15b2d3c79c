/** The list-of-bars variant of the inflection-day engine (`inflection_analyzer.py`).
    There are no pandas here. The Ichimoku lines are computed once for the last bar.
    The day count runs from the lowest low of the last 120 bars. Then one rating rule
    per checkpoint day (9, 13, 26, 33, 42, 51) adds bonus points for timing, breakouts,
    gains and volume. Checkpoints whose strength is at least 60 become the active signals. */
module InflectionAnalyzer {
  import opened Series

  /** Fewer bars than this and the Ichimoku lines (and the whole analysis) are refused. */
  const MinBars: nat := 52

  /** Window of the lowest-point search. */
  const Lookback: int := 120

  /** The keys of the checkpoint table; the last three have no rating rule. */
  const Checkpoints: seq<nat> := [9, 13, 26, 33, 42, 51, 65, 77, 88]

  /** The checkpoints that are rated, in the order the analysis adds them. */
  const RatedDays: seq<nat> := [9, 13, 26, 33, 42, 51]

  /** A strength from which a rated checkpoint is reported as an active signal. */
  const ActiveThreshold: int := 60

  // ---------------------------------------------------------------------------
  // Ichimoku values of the last bar
  // ---------------------------------------------------------------------------

  datatype Ichimoku = Ichimoku(
    conversion: real, base: real, spanA: real, spanB: real, lagging: real,
    currentPrice: real, cloudTop: real, cloudBottom: real, cloudThickness: real)

  /** Highest high of a non-empty run of bars (Python's `max` over the highs). */
  function HighestHigh(bars: seq<Bar>): real
    requires |bars| > 0
  {
    if |bars| == 1 then bars[0].high
    else if bars[0].high >= HighestHigh(bars[1..]) then bars[0].high
    else HighestHigh(bars[1..])
  }

  /** The highest high bounds every high of the run and is one of them. */
  lemma {:induction false} HighestHighBounds(bars: seq<Bar>)
    requires |bars| > 0
    ensures forall i :: 0 <= i < |bars| ==> bars[i].high <= HighestHigh(bars)
    ensures exists i :: 0 <= i < |bars| && bars[i].high == HighestHigh(bars)
  {
    if |bars| == 1 {
      assert bars[0].high == HighestHigh(bars);
    } else {
      var rest := bars[1..];
      HighestHighBounds(rest);
      assert forall i :: 1 <= i < |bars| ==> bars[i] == rest[i - 1];
      var k :| 0 <= k < |rest| && rest[k].high == HighestHigh(rest);
      assert bars[k + 1] == rest[k];
      if HighestHigh(bars) == bars[0].high {
        assert bars[0].high == HighestHigh(bars);
      } else {
        assert bars[k + 1].high == HighestHigh(bars);
      }
    }
  }

  /** Lowest low of a non-empty run of bars (Python's `min` over the lows). */
  function LowestLow(bars: seq<Bar>): real
    requires |bars| > 0
  {
    if |bars| == 1 then bars[0].low
    else if bars[0].low <= LowestLow(bars[1..]) then bars[0].low
    else LowestLow(bars[1..])
  }

  /** The lowest low is below every low of the run and is one of them. */
  lemma {:induction false} LowestLowBounds(bars: seq<Bar>)
    requires |bars| > 0
    ensures forall i :: 0 <= i < |bars| ==> LowestLow(bars) <= bars[i].low
    ensures exists i :: 0 <= i < |bars| && bars[i].low == LowestLow(bars)
  {
    if |bars| == 1 {
      assert bars[0].low == LowestLow(bars);
    } else {
      var rest := bars[1..];
      LowestLowBounds(rest);
      assert forall i :: 1 <= i < |bars| ==> bars[i] == rest[i - 1];
      var k :| 0 <= k < |rest| && rest[k].low == LowestLow(rest);
      assert bars[k + 1] == rest[k];
      if LowestLow(bars) == bars[0].low {
        assert bars[0].low == LowestLow(bars);
      } else {
        assert bars[k + 1].low == LowestLow(bars);
      }
    }
  }

  /** Sum of the closes of a run of bars. */
  function CloseSum(bars: seq<Bar>): real
  {
    if |bars| == 0 then 0.0 else CloseSum(bars[..|bars| - 1]) + bars[|bars| - 1].close
  }

  /** Sum of the volumes of a run of bars. */
  function VolumeSum(bars: seq<Bar>): real
  {
    if |bars| == 0 then 0.0 else VolumeSum(bars[..|bars| - 1]) + bars[|bars| - 1].volume as real
  }

  /** (highest high + lowest low) / 2 over a non-empty run of bars. */
  function MidOf(bars: seq<Bar>): real
    requires |bars| > 0
  {
    (HighestHigh(bars) + LowestLow(bars)) / 2.0
  }

  /** The Ichimoku values of the last bar. They are computed from the last 9, 26 and
      52 bars and are not shifted forward. There is no result below 52 bars. */
  function CalculateIchimoku(data: seq<Bar>): (r: Option<Ichimoku>)
    ensures r.None? <==> |data| < MinBars
    ensures r.Some? ==> r.value.cloudBottom <= r.value.cloudTop && r.value.cloudThickness >= 0.0
    ensures r.Some? ==> r.value.cloudThickness == r.value.cloudTop - r.value.cloudBottom
    ensures r.Some? ==>
      (r.value.cloudTop == r.value.spanA && r.value.cloudBottom == r.value.spanB) ||
      (r.value.cloudTop == r.value.spanB && r.value.cloudBottom == r.value.spanA)
    ensures r.Some? ==>
      (r.value.conversion <= r.value.spanA <= r.value.base || r.value.base <= r.value.spanA <= r.value.conversion)
    ensures r.Some? ==> r.value.currentPrice == data[|data| - 1].close && r.value.lagging == data[|data| - 26].close
  {
    if |data| < MinBars then None
    else
      var conversion := MidOf(data[|data| - 9..]);
      var base := MidOf(data[|data| - 26..]);
      var spanA := (conversion + base) / 2.0;
      var spanB := MidOf(data[|data| - 52..]);
      // the fallback to the first close for fewer than 26 bars cannot arise after the 52-bar guard
      var lagging := data[|data| - 26].close;
      var top := if spanB > spanA then spanB else spanA;
      var bottom := if spanB < spanA then spanB else spanA;
      var thickness := if spanA >= spanB then spanA - spanB else spanB - spanA;
      Some(Ichimoku(conversion, base, spanA, spanB, lagging, data[|data| - 1].close, top, bottom, thickness))
  }

  /** The midpoint is half the sum of a high that bounds every high of the run and a low
      that bounds every low of it, both taken from bars of the run. */
  lemma MidOfWindow(bars: seq<Bar>)
    requires |bars| > 0
    ensures exists i, j :: (0 <= i < |bars| && 0 <= j < |bars| &&
      2.0 * MidOf(bars) == bars[i].high + bars[j].low &&
      forall k :: 0 <= k < |bars| ==> bars[k].high <= bars[i].high && bars[j].low <= bars[k].low)
  {
    HighestHighBounds(bars);
    LowestLowBounds(bars);
    var i :| 0 <= i < |bars| && bars[i].high == HighestHigh(bars);
    var j :| 0 <= j < |bars| && bars[j].low == LowestLow(bars);
    assert 2.0 * MidOf(bars) == bars[i].high + bars[j].low;
  }

  /** The values of the lines: the conversion line is the midpoint of the last 9 bars,
      the base line that of the last 26, span B that of the last 52, and span A the
      mean of the conversion and base lines. */
  lemma CalculateIchimokuLines(data: seq<Bar>)
    ensures CalculateIchimoku(data).Some? ==>
      |data| >= MinBars &&
      CalculateIchimoku(data).value.conversion == MidOf(data[|data| - 9..]) &&
      CalculateIchimoku(data).value.base == MidOf(data[|data| - 26..]) &&
      CalculateIchimoku(data).value.spanB == MidOf(data[|data| - 52..]) &&
      CalculateIchimoku(data).value.spanA ==
        (CalculateIchimoku(data).value.conversion + CalculateIchimoku(data).value.base) / 2.0
  {
  }

  /** Conversion line above the base line. */
  predicate GoldenCross(ich: Ichimoku)
  {
    ich.conversion > ich.base
  }

  /** Last close above the top of the cloud. */
  predicate AboveCloud(ich: Ichimoku)
  {
    ich.currentPrice > ich.cloudTop
  }

  /** Above the cloud means above both leading spans. */
  lemma AboveCloudMeansAboveBothSpans(data: seq<Bar>)
    requires |data| >= MinBars
    ensures AboveCloud(CalculateIchimoku(data).value) <==>
      CalculateIchimoku(data).value.currentPrice > CalculateIchimoku(data).value.spanA &&
      CalculateIchimoku(data).value.currentPrice > CalculateIchimoku(data).value.spanB
  {
  }

  /** The last close is above the close 25 bars earlier; false below 26 bars. */
  predicate LaggingAbovePrice(data: seq<Bar>)
  {
    |data| >= 26 && data[|data| - 1].close > data[|data| - 26].close
  }

  // ---------------------------------------------------------------------------
  // The lowest point and the day count
  // ---------------------------------------------------------------------------

  /** Index of the first smallest element: Python's `min` keeps the earliest of equal keys. */
  function EarliestMin(xs: seq<real>): (i: nat)
    requires |xs| > 0
    ensures i < |xs|
    ensures forall j :: 0 <= j < |xs| ==> xs[i] <= xs[j]
    ensures forall j :: 0 <= j < i ==> xs[j] > xs[i]
  {
    if |xs| == 1 then 0
    else
      var k := EarliestMin(xs[..|xs| - 1]);
      assert forall j :: 0 <= j < |xs| - 1 ==> xs[..|xs| - 1][j] == xs[j];
      if xs[|xs| - 1] < xs[k] then |xs| - 1 else k
  }

  /** The bars searched for the lowest point: `data[-lookback:]` when there are more
      than `lookback` bars, else all of them. */
  function LowWindow(data: seq<Bar>, lookback: int): (w: seq<Bar>)
    ensures lookback > 0 ==> w == Tail(data, lookback)
    ensures lookback >= 0 ==> (|w| == 0 <==> |data| == 0)
  {
    if |data| > lookback then PyTail(data, lookback) else data
  }

  datatype LowPoint = LowPoint(date: int, low: real)

  /** Date and price of the lowest low in the window; None when the window is empty
      (Python's `min` on an empty sequence raises). */
  function FindLowestPoint(data: seq<Bar>, lookback: int): (r: Option<LowPoint>)
    ensures r.None? <==> |LowWindow(data, lookback)| == 0
  {
    var w := LowWindow(data, lookback);
    if |w| == 0 then None
    else
      var i := EarliestMin(Lows(w));
      Some(LowPoint(w[i].date, w[i].low))
  }

  /** Bar i of the window is the lowest point p: no bar of the window undercuts its low,
      and no earlier bar has the same low. */
  predicate EarliestLowAt(w: seq<Bar>, i: int, p: LowPoint)
  {
    0 <= i < |w| && p == LowPoint(w[i].date, w[i].low) &&
    (forall j :: 0 <= j < |w| ==> w[i].low <= w[j].low) &&
    (forall j :: 0 <= j < i ==> w[j].low > w[i].low)
  }

  /** The lowest point is the earliest bar of the window with the window's smallest low. */
  lemma LowestPointIsEarliestMinimum(data: seq<Bar>, lookback: int)
    requires FindLowestPoint(data, lookback).Some?
    ensures exists i :: EarliestLowAt(LowWindow(data, lookback), i, FindLowestPoint(data, lookback).value)
  {
    var w := LowWindow(data, lookback);
    var xs := Lows(w);
    var i := EarliestMin(xs);
    assert FindLowestPoint(data, lookback).value == LowPoint(w[i].date, w[i].low);
    forall j | 0 <= j < |w| ensures w[i].low <= w[j].low {
      assert xs[i] == w[i].low && xs[j] == w[j].low;
    }
    forall j | 0 <= j < i ensures w[j].low > w[i].low {
      assert xs[i] == w[i].low && xs[j] == w[j].low;
    }
    assert EarliestLowAt(w, i, FindLowestPoint(data, lookback).value);
  }

  /** The lowest point of the 120-bar lookback is no higher than any low among the last
      120 bars of the series. */
  lemma LowestInLookback(data: seq<Bar>)
    requires |data| > 0
    ensures FindLowestPoint(data, Lookback).Some?
    ensures forall j :: 0 <= j < |data| && |data| - Lookback <= j ==> FindLowestPoint(data, Lookback).value.low <= data[j].low
  {
    LowestPointIsEarliestMinimum(data, Lookback);
    var w := LowWindow(data, Lookback);
    var p := FindLowestPoint(data, Lookback).value;
    var i :| EarliestLowAt(w, i, p);
    forall j | 0 <= j < |data| && |data| - Lookback <= j
      ensures p.low <= data[j].low
    {
      assert w[j - (|data| - |w|)] == data[j];
    }
  }

  /** Calendar days from the low to the current bar. */
  function DaysSinceLow(currentDate: int, lowDate: int): (d: int)
    ensures d >= 0 <==> lowDate <= currentDate
  {
    currentDate - lowDate
  }

  /** Under increasing dates the day count from a bar to the last bar is positive,
      unless the low is on the last bar. */
  lemma DaysSinceLowOfBar(data: seq<Bar>, i: nat)
    requires IncreasingDates(data) && i < |data|
    ensures DaysSinceLow(data[|data| - 1].date, data[i].date) >= 0
    ensures DaysSinceLow(data[|data| - 1].date, data[i].date) == 0 <==> i == |data| - 1
  {
  }

  // ---------------------------------------------------------------------------
  // Window tests shared by the rules
  // ---------------------------------------------------------------------------

  /** x exceeds the highest high of bars [from, to) exactly when it exceeds each of them. */
  lemma AboveWindowHigh(data: seq<Bar>, from: nat, to: nat, x: real)
    requires from < to <= |data|
    ensures x > HighestHigh(data[from..to]) <==> forall j :: from <= j < to ==> data[j].high < x
  {
    var w := data[from..to];
    HighestHighBounds(w);
    assert forall j :: from <= j < to ==> w[j - from] == data[j];
  }

  /** The gain in percent from `low` to `price`, as the analysis writes it. */
  function GainPct(price: real, low: real): real
    requires low != 0.0
  {
    (price - low) / low * 100.0
  }

  /** Mean volume of the last 5 bars. */
  function RecentVolume(data: seq<Bar>): real
    requires |data| >= 10
  {
    VolumeSum(data[|data| - 5..]) / 5.0
  }

  /** Mean volume of the 5 bars before those. */
  function PreviousVolume(data: seq<Bar>): real
    requires |data| >= 10
  {
    VolumeSum(data[|data| - 10..|data| - 5]) / 5.0
  }

  /** Mean volume of the last 5 bars against that of the 5 bars before, times `factor`. */
  predicate VolumeAbove(data: seq<Bar>, factor: real)
  {
    |data| >= 10 && RecentVolume(data) > PreviousVolume(data) * factor
  }

  datatype Label = Neutral | Bullish | StrongBullish | VeryStrongBullish

  /** The outcome of one rule: too few bars for the Ichimoku lines, a `min` over an empty
      window (Python's ValueError), or a label and a strength. */
  datatype Rating = InsufficientData | EmptyWindow | Rated(signal: Label, strength: int)

  /** The strength the analysis reads from a rating (0 for the insufficient-data result). */
  function StrengthOf(r: Rating): (s: int)
    ensures r.Rated? ==> s == r.strength
    ensures !r.Rated? ==> s == 0
  {
    if r.Rated? then r.strength else 0
  }

  // ---------------------------------------------------------------------------
  // Day 9
  // ---------------------------------------------------------------------------

  /** The highest high of the k bars before the last one. */
  function HighBefore(data: seq<Bar>, k: nat): real
    requires 0 < k < |data|
  {
    HighestHigh(data[|data| - 1 - k..|data| - 1])
  }

  /** The last high exceeds the k highs before it exactly when it exceeds each of them. */
  lemma BreakoutIsStrict(data: seq<Bar>, k: nat)
    requires 0 < k < |data|
    ensures data[|data| - 1].high > HighBefore(data, k) <==>
      forall j :: |data| - 1 - k <= j < |data| - 1 ==> data[j].high < data[|data| - 1].high
  {
    AboveWindowHigh(data, |data| - 1 - k, |data| - 1, data[|data| - 1].high);
  }

  /** The last high above every high of the 8 bars before it. */
  predicate Breakout9(data: seq<Bar>)
    requires |data| >= 9
  {
    data[|data| - 1].high > HighBefore(data, 8)
  }

  /** The conversion line of the bar before, from bars [n-10, n-1). */
  function PreviousConversion(data: seq<Bar>): real
    requires |data| >= 10
  {
    MidOf(data[|data| - 10..|data| - 1])
  }

  /** The base line of the bar before, from bars [n-27, n-1). */
  function PreviousBase(data: seq<Bar>): real
    requires |data| >= 27
  {
    MidOf(data[|data| - 27..|data| - 1])
  }

  function Strength9(data: seq<Bar>, ich: Ichimoku, days: int): (r: int)
    requires |data| >= MinBars
    ensures 0 <= r <= 100
  {
    Bonus(7 <= days <= 11, 20 + Bonus(Breakout9(data), 40))
    + Bonus(ich.conversion > PreviousConversion(data), 25)
    + Bonus(ich.conversion > CloseSum(data[|data| - 10..]) / 10.0, 15)
  }

  function Label9(strength: int): Label
  {
    if strength >= 60 then Bullish else Neutral
  }

  function Rating9(data: seq<Bar>, days: int): (r: Rating)
    ensures r.InsufficientData? <==> |data| < MinBars
    ensures !r.EmptyWindow?
  {
    match CalculateIchimoku(data)
    case None => InsufficientData
    case Some(ich) => Rated(Label9(Strength9(data, ich, days)), Strength9(data, ich, days))
  }

  method Score9(data: seq<Bar>, ich: Ichimoku, days: int) returns (strength: int)
    requires |data| >= MinBars
    ensures strength == Strength9(data, ich, days)
  {
    strength := 0;
    if 7 <= days <= 11 {
      strength := strength + 20;
      // the last 9 bars without the current one
      var high9 := HighBefore(data, 8);
      if data[|data| - 1].high > high9 {
        strength := strength + 40;
      }
    }
    if |data| >= 10 {
      var previous := PreviousConversion(data);
      if ich.conversion > previous {
        strength := strength + 25;
      }
    }
    if |data| >= 10 {
      var ma10 := CloseSum(data[|data| - 10..]) / 10.0;
      if ich.conversion > ma10 {
        strength := strength + 15;
      }
    }
  }

  method Analyze9(data: seq<Bar>, days: int) returns (r: Rating)
    ensures r == Rating9(data, days)
  {
    var ichimoku := CalculateIchimoku(data);
    if ichimoku.None? {
      return InsufficientData;
    }
    var strength := Score9(data, ichimoku.value, days);
    r := Rated(Label9(strength), strength);
  }

  /** Day 9: strength in [0, 100]; outside days 7..11 neither the timing nor the breakout
      bonus counts, so the strength is at most 40 and the label neutral. */
  lemma Strength9Range(data: seq<Bar>, ich: Ichimoku, days: int)
    requires |data| >= MinBars
    ensures 0 <= Strength9(data, ich, days) <= 100
    ensures Label9(Strength9(data, ich, days)) == Bullish <==> Strength9(data, ich, days) >= 60
    ensures !(7 <= days <= 11) ==> Strength9(data, ich, days) <= 40 && Label9(Strength9(data, ich, days)) == Neutral
  {
  }

  /** The day-9 breakout is strict over each of the 8 previous highs. */
  lemma Breakout9Strict(data: seq<Bar>)
    requires |data| >= MinBars
    ensures Breakout9(data) <==> forall j :: |data| - 9 <= j < |data| - 1 ==> data[j].high < data[|data| - 1].high
  {
    BreakoutIsStrict(data, 8);
  }

  // ---------------------------------------------------------------------------
  // Day 13
  // ---------------------------------------------------------------------------

  /** The conversion line crossed the base line on this bar. */
  predicate JustCrossed(data: seq<Bar>, ich: Ichimoku)
    requires |data| >= 27
  {
    PreviousConversion(data) <= PreviousBase(data) && ich.conversion > ich.base
  }

  /** The last high above every high of the 12 bars before it. */
  predicate NewHigh13(data: seq<Bar>)
    requires |data| >= 13
  {
    data[|data| - 1].high > HighBefore(data, 12)
  }

  function Strength13(data: seq<Bar>, ich: Ichimoku, days: int): (r: int)
    requires |data| >= MinBars
    ensures 0 <= r <= 120
  {
    Bonus(11 <= days <= 15, 25)
    + Bonus(GoldenCross(ich), 40 + Bonus(JustCrossed(data, ich), 20))
    + Bonus(NewHigh13(data), 20)
    + Bonus(LaggingAbovePrice(data), 15)
  }

  /** The 70 / 50 label chain of days 13 and 26. */
  function Label7050(strength: int): Label
  {
    if strength >= 70 then StrongBullish else if strength >= 50 then Bullish else Neutral
  }

  function Rating13(data: seq<Bar>, days: int): (r: Rating)
    ensures r.InsufficientData? <==> |data| < MinBars
    ensures !r.EmptyWindow?
  {
    match CalculateIchimoku(data)
    case None => InsufficientData
    case Some(ich) => Rated(Label7050(Strength13(data, ich, days)), Strength13(data, ich, days))
  }

  method Score13(data: seq<Bar>, ich: Ichimoku, days: int) returns (strength: int)
    requires |data| >= MinBars
    ensures strength == Strength13(data, ich, days)
  {
    strength := 0;
    if 11 <= days <= 15 {
      strength := strength + 25;
    }
    if ich.conversion > ich.base {
      strength := strength + 40;
      if |data| >= 2 {
        var previousConversion := PreviousConversion(data);
        var previousBase := PreviousBase(data);
        if previousConversion <= previousBase && ich.conversion > ich.base {
          strength := strength + 20;
        }
      }
    }
    if |data| >= 13 && data[|data| - 1].high > HighBefore(data, 12) {
      strength := strength + 20;
    }
    if LaggingAbovePrice(data) {
      strength := strength + 15;
    }
  }

  method Analyze13(data: seq<Bar>, days: int) returns (r: Rating)
    ensures r == Rating13(data, days)
  {
    var ichimoku := CalculateIchimoku(data);
    if ichimoku.None? {
      return InsufficientData;
    }
    var strength := Score13(data, ichimoku.value, days);
    r := Rated(Label7050(strength), strength);
  }

  /** Day 13 is not capped: strength in [0, 120], and 120 exactly when all five
      conditions hold. The cross bonus only counts inside the golden-cross branch, so
      without a golden cross the strength is at most 60 and the label not strong. */
  lemma Strength13Range(data: seq<Bar>, ich: Ichimoku, days: int)
    requires |data| >= MinBars
    ensures 0 <= Strength13(data, ich, days) <= 120
    ensures Strength13(data, ich, days) == 120 <==>
      (11 <= days <= 15) && JustCrossed(data, ich) && NewHigh13(data) && LaggingAbovePrice(data)
    ensures !GoldenCross(ich) ==>
      Strength13(data, ich, days) <= 60 && Label7050(Strength13(data, ich, days)) != StrongBullish
  {
  }

  /** The 70 / 50 chain: strongly bullish from 70, neutral below 50, bullish between. */
  lemma Label7050Bands(strength: int)
    ensures Label7050(strength) == StrongBullish <==> strength >= 70
    ensures Label7050(strength) == Bullish <==> 50 <= strength < 70
    ensures Label7050(strength) == Neutral <==> strength < 50
  {
  }

  // ---------------------------------------------------------------------------
  // Day 26
  // ---------------------------------------------------------------------------

  /** The last high is at least the highest high of the last 26 bars, today included. */
  predicate NewHigh26(data: seq<Bar>)
    requires |data| >= 26
  {
    data[|data| - 1].high >= HighestHigh(data[|data| - 26..])
  }

  /** Conversion over base, price over conversion and span A over span B. */
  predicate Aligned(ich: Ichimoku)
  {
    ich.conversion > ich.base && ich.currentPrice > ich.conversion && ich.spanA > ich.spanB
  }

  function Strength26(data: seq<Bar>, ich: Ichimoku, days: int): (r: int)
    requires |data| >= MinBars
    ensures 0 <= r <= 100
  {
    Bonus(23 <= days <= 29, 25)
    + Bonus(AboveCloud(ich), 35)
    + Bonus(NewHigh26(data), 25)
    + Bonus(Aligned(ich), 15)
  }

  function Rating26(data: seq<Bar>, days: int): (r: Rating)
    ensures r.InsufficientData? <==> |data| < MinBars
    ensures !r.EmptyWindow?
  {
    match CalculateIchimoku(data)
    case None => InsufficientData
    case Some(ich) => Rated(Label7050(Strength26(data, ich, days)), Strength26(data, ich, days))
  }

  method Score26(data: seq<Bar>, ich: Ichimoku, days: int) returns (strength: int)
    requires |data| >= MinBars
    ensures strength == Strength26(data, ich, days)
  {
    strength := 0;
    if 23 <= days <= 29 {
      strength := strength + 25;
    }
    if ich.currentPrice > ich.cloudTop {
      strength := strength + 35;
    }
    if |data| >= 26 {
      var high26 := HighestHigh(data[|data| - 26..]);
      if data[|data| - 1].high >= high26 {
        strength := strength + 25;
      }
    }
    if ich.conversion > ich.base && ich.currentPrice > ich.conversion && ich.spanA > ich.spanB {
      strength := strength + 15;
    }
  }

  method Analyze26(data: seq<Bar>, days: int) returns (r: Rating)
    ensures r == Rating26(data, days)
  {
    var ichimoku := CalculateIchimoku(data);
    if ichimoku.None? {
      return InsufficientData;
    }
    var strength := Score26(data, ichimoku.value, days);
    r := Rated(Label7050(strength), strength);
  }

  /** Day 26: strength in [0, 100]. */
  lemma Strength26Range(data: seq<Bar>, ich: Ichimoku, days: int)
    requires |data| >= MinBars
    ensures 0 <= Strength26(data, ich, days) <= 100
  {
  }

  /** The day-26 new-high test, taken against a window that includes the last bar, holds
      exactly when no high of the last 26 bars exceeds the last one. */
  lemma NewHigh26IsWindowMaximum(data: seq<Bar>)
    requires |data| >= MinBars
    ensures NewHigh26(data) <==> forall j :: |data| - 26 <= j < |data| ==> data[j].high <= data[|data| - 1].high
  {
    var w := data[|data| - 26..];
    HighestHighBounds(w);
    assert w[25] == data[|data| - 1];
    assert forall j :: |data| - 26 <= j < |data| ==> w[j - (|data| - 26)] == data[j];
  }

  // ---------------------------------------------------------------------------
  // Day 33
  // ---------------------------------------------------------------------------

  /** The gain tiers of day 33: over 15 % or else over 10 %. */
  function GainTier33(gain: real): int
  {
    if gain > 15.0 then 30 else if gain > 10.0 then 20 else 0
  }

  /** The tiers are exclusive: the higher threshold wins and only one bonus is paid. */
  lemma GainTier33Exclusive(gain: real)
    ensures GainTier33(gain) == 30 <==> gain > 15.0
    ensures GainTier33(gain) == 20 <==> 10.0 < gain <= 15.0
    ensures GainTier33(gain) == 0 <==> gain <= 10.0
  {
  }

  /** The lowest low since the low day: `data[-days:]`, with Python's slice rules. */
  function SinceLow(data: seq<Bar>, days: int): seq<Bar>
  {
    PyTail(data, days)
  }

  /** The window is empty only for a negative day count that reaches past the start. */
  lemma SinceLowEmpty(data: seq<Bar>, days: int)
    ensures |SinceLow(data, days)| == 0 <==> |data| == 0 || (days < 0 && -days >= |data|)
  {
  }

  function Strength33(data: seq<Bar>, ich: Ichimoku, days: int): (r: int)
    requires |data| >= MinBars && PositivePrices(data) && |SinceLow(data, days)| > 0
    ensures 0 <= r <= 100
  {
    WindowLowPositive(data, days);
    var low := LowestLow(SinceLow(data, days));
    Bonus(30 <= days <= 36, 20)
    + GainTier33(GainPct(ich.currentPrice, low))
    + Bonus(ich.cloudThickness > ich.currentPrice * 0.03, 25)
    + Bonus(VolumeAbove(data, 1.5), 25)
  }

  function Label33(strength: int): Label
  {
    if strength >= 70 then StrongBullish else Bullish
  }

  /** Positive window lows: a helper fact for the divisions by the lowest low. */
  lemma WindowLowPositive(data: seq<Bar>, days: int)
    requires PositivePrices(data) && |SinceLow(data, days)| > 0
    ensures LowestLow(SinceLow(data, days)) > 0.0
  {
    var w := SinceLow(data, days);
    LowestLowBounds(w);
    var k :| 0 <= k < |w| && w[k].low == LowestLow(w);
    assert w[k] in data;
  }

  function Rating33(data: seq<Bar>, days: int): (r: Rating)
    requires PositivePrices(data)
    ensures r.InsufficientData? <==> |data| < MinBars
    ensures r.EmptyWindow? <==> |data| >= MinBars && days < 0 && -days >= |data|
  {
    match CalculateIchimoku(data)
    case None => InsufficientData
    case Some(ich) =>
      if |SinceLow(data, days)| == 0 then EmptyWindow
      else Rated(Label33(Strength33(data, ich, days)), Strength33(data, ich, days))
  }

  method Score33(data: seq<Bar>, ich: Ichimoku, days: int) returns (strength: int)
    requires |data| >= MinBars && PositivePrices(data) && |SinceLow(data, days)| > 0
    ensures strength == Strength33(data, ich, days)
  {
    strength := 0;
    if 30 <= days <= 36 {
      strength := strength + 20;
    }
    WindowLowPositive(data, days);
    var lowPrice := LowestLow(SinceLow(data, days));
    var gain := GainPct(ich.currentPrice, lowPrice);
    if gain > 15.0 {
      strength := strength + 30;
    } else if gain > 10.0 {
      strength := strength + 20;
    }
    if ich.cloudThickness > ich.currentPrice * 0.03 {
      strength := strength + 25;
    }
    if |data| >= 10 {
      var recentVolume := RecentVolume(data);
      var previousVolume := PreviousVolume(data);
      if recentVolume > previousVolume * 1.5 {
        strength := strength + 25;
      }
    }
  }

  method Analyze33(data: seq<Bar>, days: int) returns (r: Rating)
    requires PositivePrices(data)
    ensures r == Rating33(data, days)
  {
    var ichimoku := CalculateIchimoku(data);
    if ichimoku.None? {
      return InsufficientData;
    }
    if |PyTail(data, days)| == 0 {
      return EmptyWindow;
    }
    var strength := Score33(data, ichimoku.value, days);
    r := Rated(Label33(strength), strength);
  }

  /** Day 33: strength in [0, 100] and the label is never neutral. */
  lemma Strength33Range(data: seq<Bar>, ich: Ichimoku, days: int)
    requires |data| >= MinBars && PositivePrices(data) && |SinceLow(data, days)| > 0
    ensures 0 <= Strength33(data, ich, days) <= 100
    ensures Label33(Strength33(data, ich, days)) != Neutral
  {
  }

  // ---------------------------------------------------------------------------
  // Day 42
  // ---------------------------------------------------------------------------

  /** The last high above every high of the 59 bars before it. */
  predicate Breakout60(data: seq<Bar>)
  {
    |data| >= 60 && data[|data| - 1].high > HighBefore(data, 59)
  }

  /** Number of positions i >= 1 at which the close rises over the close before. */
  function RisingCloses(bars: seq<Bar>): (c: nat)
    ensures |bars| > 0 ==> c <= |bars| - 1
    ensures |bars| == 0 ==> c == 0
  {
    if |bars| <= 1 then 0
    else RisingCloses(bars[..|bars| - 1]) + (if bars[|bars| - 1].close > bars[|bars| - 2].close then 1 else 0)
  }

  /** Rising closes among the last 16 bars (15 comparisons). */
  function RisingDays16(data: seq<Bar>): nat
    requires |data| >= 16
  {
    RisingCloses(data[|data| - 16..])
  }

  function Strength42(data: seq<Bar>, ich: Ichimoku, days: int): (r: int)
    requires |data| >= MinBars
    ensures 0 <= r <= 100
  {
    Bonus(39 <= days <= 45, 20)
    + Bonus(Breakout60(data), 40)
    + Bonus(|data| >= 26 && RisingDays16(data) >= 10, 25)
    + Bonus(VolumeAbove(data, 2.0), 15)
  }

  function Label42(strength: int): Label
  {
    if strength >= 80 then VeryStrongBullish else if strength >= 60 then StrongBullish else Bullish
  }

  function Rating42(data: seq<Bar>, days: int): (r: Rating)
    ensures r.InsufficientData? <==> |data| < MinBars
    ensures !r.EmptyWindow?
  {
    match CalculateIchimoku(data)
    case None => InsufficientData
    case Some(ich) => Rated(Label42(Strength42(data, ich, days)), Strength42(data, ich, days))
  }

  /** Counts the rising closes of `recent` the way the source's generator does. */
  method CountRisingDays(recent: seq<Bar>) returns (count: nat)
    ensures count == RisingCloses(recent)
  {
    count := 0;
    if |recent| <= 1 {
      return;
    }
    for i := 1 to |recent|
      invariant count == RisingCloses(recent[..i])
    {
      var prefix := recent[..i + 1];
      assert prefix[..i] == recent[..i];
      assert prefix[i] == recent[i] && prefix[i - 1] == recent[i - 1];
      if recent[i].close > recent[i - 1].close {
        count := count + 1;
      }
    }
    assert recent[..|recent|] == recent;
  }

  method Score42(data: seq<Bar>, ich: Ichimoku, days: int) returns (strength: int)
    requires |data| >= MinBars
    ensures strength == Strength42(data, ich, days)
  {
    strength := 0;
    if 39 <= days <= 45 {
      strength := strength + 20;
    }
    if |data| >= 60 {
      var high60 := HighBefore(data, 59);
      if data[|data| - 1].high > high60 {
        strength := strength + 40;
      }
    }
    if |data| >= 26 {
      var risingDays := CountRisingDays(data[|data| - 16..]);
      if risingDays >= 10 {
        strength := strength + 25;
      }
    }
    if |data| >= 10 {
      var recentVolume := RecentVolume(data);
      var previousVolume := PreviousVolume(data);
      if recentVolume > previousVolume * 2.0 {
        strength := strength + 15;
      }
    }
  }

  method Analyze42(data: seq<Bar>, days: int) returns (r: Rating)
    ensures r == Rating42(data, days)
  {
    var ichimoku := CalculateIchimoku(data);
    if ichimoku.None? {
      return InsufficientData;
    }
    var strength := Score42(data, ichimoku.value, days);
    r := Rated(Label42(strength), strength);
  }

  /** Day 42: strength in [0, 100]; at most 15 rising days among the last 16 bars. */
  lemma Strength42Range(data: seq<Bar>, ich: Ichimoku, days: int)
    requires |data| >= MinBars
    ensures 0 <= Strength42(data, ich, days) <= 100
    ensures RisingDays16(data) <= 15
  {
  }

  /** The 60-day breakout is strict over each of the 59 previous highs. */
  lemma Breakout60Strict(data: seq<Bar>)
    requires |data| >= 60
    ensures Breakout60(data) <==> forall j :: |data| - 60 <= j < |data| - 1 ==> data[j].high < data[|data| - 1].high
  {
    BreakoutIsStrict(data, 59);
  }

  /** The 80 / 60 chain of day 42: very strong from 80, strong from 60, else bullish. */
  lemma Label42Bands(strength: int)
    ensures Label42(strength) == VeryStrongBullish <==> strength >= 80
    ensures Label42(strength) == StrongBullish <==> 60 <= strength < 80
    ensures Label42(strength) == Bullish <==> strength < 60
  {
  }

  // ---------------------------------------------------------------------------
  // Day 51
  // ---------------------------------------------------------------------------

  /** The gain tiers of day 51: over 30 % or else over 20 %. */
  function GainTier51(gain: real): int
  {
    if gain > 30.0 then 35 else if gain > 20.0 then 25 else 0
  }

  lemma GainTier51Exclusive(gain: real)
    ensures GainTier51(gain) == 35 <==> gain > 30.0
    ensures GainTier51(gain) == 25 <==> 20.0 < gain <= 30.0
    ensures GainTier51(gain) == 0 <==> gain <= 20.0
  {
  }

  /** Day 51's window: `data[-days:]` when days <= len(data), else all of it. */
  function Window51(data: seq<Bar>, days: int): (w: seq<Bar>)
    ensures w == SinceLow(data, days)
  {
    if days <= |data| then PyTail(data, days) else data
  }

  function Strength51(data: seq<Bar>, ich: Ichimoku, days: int): (r: int)
    requires |data| >= MinBars && PositivePrices(data) && |SinceLow(data, days)| > 0
    ensures 0 <= r <= 100
  {
    WindowLowPositive(data, days);
    var low := LowestLow(Window51(data, days));
    Bonus(47 <= days <= 55, 20)
    + GainTier51(GainPct(ich.currentPrice, low))
    + Bonus(ich.cloudThickness > ich.currentPrice * 0.05, 25)
    + Bonus(LaggingAbovePrice(data), 20)
  }

  function Label51(strength: int): Label
  {
    if strength >= 80 then VeryStrongBullish else StrongBullish
  }

  function Rating51(data: seq<Bar>, days: int): (r: Rating)
    requires PositivePrices(data)
    ensures r.InsufficientData? <==> |data| < MinBars
    ensures r.EmptyWindow? <==> |data| >= MinBars && days < 0 && -days >= |data|
  {
    match CalculateIchimoku(data)
    case None => InsufficientData
    case Some(ich) =>
      if |Window51(data, days)| == 0 then EmptyWindow
      else Rated(Label51(Strength51(data, ich, days)), Strength51(data, ich, days))
  }

  method Score51(data: seq<Bar>, ich: Ichimoku, days: int) returns (strength: int)
    requires |data| >= MinBars && PositivePrices(data) && |SinceLow(data, days)| > 0
    ensures strength == Strength51(data, ich, days)
  {
    strength := 0;
    if 47 <= days <= 55 {
      strength := strength + 20;
    }
    var recent := Window51(data, days);
    WindowLowPositive(data, days);
    var lowPrice := LowestLow(recent);
    var gain := GainPct(ich.currentPrice, lowPrice);
    if gain > 30.0 {
      strength := strength + 35;
    } else if gain > 20.0 {
      strength := strength + 25;
    }
    if ich.cloudThickness > ich.currentPrice * 0.05 {
      strength := strength + 25;
    }
    if LaggingAbovePrice(data) {
      strength := strength + 20;
    }
  }

  method Analyze51(data: seq<Bar>, days: int) returns (r: Rating)
    requires PositivePrices(data)
    ensures r == Rating51(data, days)
  {
    var ichimoku := CalculateIchimoku(data);
    if ichimoku.None? {
      return InsufficientData;
    }
    if |Window51(data, days)| == 0 {
      return EmptyWindow;
    }
    var strength := Score51(data, ichimoku.value, days);
    r := Rated(Label51(strength), strength);
  }

  /** Day 51: strength in [0, 100], the label at least strongly bullish. */
  lemma Strength51Range(data: seq<Bar>, ich: Ichimoku, days: int)
    requires |data| >= MinBars && PositivePrices(data) && |SinceLow(data, days)| > 0
    ensures 0 <= Strength51(data, ich, days) <= 100
    ensures Label51(Strength51(data, ich, days)) in {StrongBullish, VeryStrongBullish}
  {
  }

  // ---------------------------------------------------------------------------
  // All checkpoints
  // ---------------------------------------------------------------------------

  /** The day count from which a rated checkpoint is analysed. */
  function Gate(day: nat): (g: int)
    ensures g >= 7
  {
    if day == 9 then 7
    else if day == 13 then 11
    else if day == 26 then 23
    else if day == 33 then 30
    else if day == 42 then 39
    else if day == 51 then 47
    else 1000
  }

  datatype Inflection = Inflection(day: nat, rating: Rating)

  datatype ActiveSignal = ActiveSignal(day: nat, signal: Label, strength: int)

  /** The report of the whole analysis; the description texts are not modelled. */
  datatype Report =
    | TooFewBars
    | Analysis(currentDate: int, lowDate: int, lowPrice: real, daysSinceLow: int,
               currentPrice: real, gainFromLow: real, ichimoku: Ichimoku,
               inflections: seq<Inflection>, active: seq<ActiveSignal>)

  /** One gated checkpoint: analysed (a one-element list) once the day count reaches its gate. */
  function Gated(day: nat, days: int, rating: Rating): seq<Inflection>
  {
    if days >= Gate(day) then [Inflection(day, rating)] else []
  }

  /** The six rated checkpoints gated by the day count, in order of insertion, given the
      ratings of days 9, 13, 26, 33, 42 and 51. */
  function GatedAll(days: int, r9: Rating, r13: Rating, r26: Rating, r33: Rating, r42: Rating,
                    r51: Rating): seq<Inflection>
  {
    Gated(9, days, r9) + Gated(13, days, r13) + Gated(26, days, r26)
    + Gated(33, days, r33) + Gated(42, days, r42) + Gated(51, days, r51)
  }

  /** The checkpoints analysed for a day count. */
  function InflectionsFor(data: seq<Bar>, days: int): seq<Inflection>
    requires PositivePrices(data)
  {
    GatedAll(days, Rating9(data, days), Rating13(data, days), Rating26(data, days),
             Rating33(data, days), Rating42(data, days), Rating51(data, days))
  }

  /** One step of the chain: the list after a checkpoint is the list before it plus the
      checkpoint if its gate is reached. */
  predicate Step(before: seq<Inflection>, after: seq<Inflection>, day: nat, days: int, rating: Rating)
  {
    after == before + Gated(day, days, rating)
  }

  /** Six steps from the empty list build `GatedAll`. */
  lemma StepsBuildGatedAll(days: int, r9: Rating, r13: Rating, r26: Rating, r33: Rating, r42: Rating,
                           r51: Rating, s1: seq<Inflection>, s2: seq<Inflection>, s3: seq<Inflection>,
                           s4: seq<Inflection>, s5: seq<Inflection>, s6: seq<Inflection>)
    requires Step([], s1, 9, days, r9) && Step(s1, s2, 13, days, r13)
    requires Step(s2, s3, 26, days, r26) && Step(s3, s4, 33, days, r33)
    requires Step(s4, s5, 42, days, r42) && Step(s5, s6, 51, days, r51)
    ensures s6 == GatedAll(days, r9, r13, r26, r33, r42, r51)
  {
  }

  /** Checkpoint 9: analysed only once 7 days have passed since the low. */
  method Collect9(data: seq<Bar>, days: int, before: seq<Inflection>) returns (after: seq<Inflection>)
    requires PositivePrices(data)
    ensures Step(before, after, 9, days, Rating9(data, days))
  {
    after := before;
    assert Gate(9) == 7;
    if days >= 7 {
      var a := Analyze9(data, days);
      after := before + [Inflection(9, a)];
    }
  }

  /** Checkpoint 13: analysed only once 11 days have passed since the low. */
  method Collect13(data: seq<Bar>, days: int, before: seq<Inflection>) returns (after: seq<Inflection>)
    requires PositivePrices(data)
    ensures Step(before, after, 13, days, Rating13(data, days))
  {
    after := before;
    assert Gate(13) == 11;
    if days >= 11 {
      var a := Analyze13(data, days);
      after := before + [Inflection(13, a)];
    }
  }

  /** Checkpoint 26: analysed only once 23 days have passed since the low. */
  method Collect26(data: seq<Bar>, days: int, before: seq<Inflection>) returns (after: seq<Inflection>)
    requires PositivePrices(data)
    ensures Step(before, after, 26, days, Rating26(data, days))
  {
    after := before;
    assert Gate(26) == 23;
    if days >= 23 {
      var a := Analyze26(data, days);
      after := before + [Inflection(26, a)];
    }
  }

  /** Checkpoint 33: analysed only once 30 days have passed since the low. */
  method Collect33(data: seq<Bar>, days: int, before: seq<Inflection>) returns (after: seq<Inflection>)
    requires PositivePrices(data)
    ensures Step(before, after, 33, days, Rating33(data, days))
  {
    after := before;
    assert Gate(33) == 30;
    if days >= 30 {
      var a := Analyze33(data, days);
      after := before + [Inflection(33, a)];
    }
  }

  /** Checkpoint 42: analysed only once 39 days have passed since the low. */
  method Collect42(data: seq<Bar>, days: int, before: seq<Inflection>) returns (after: seq<Inflection>)
    requires PositivePrices(data)
    ensures Step(before, after, 42, days, Rating42(data, days))
  {
    after := before;
    assert Gate(42) == 39;
    if days >= 39 {
      var a := Analyze42(data, days);
      after := before + [Inflection(42, a)];
    }
  }

  /** Checkpoint 51: analysed only once 47 days have passed since the low. */
  method Collect51(data: seq<Bar>, days: int, before: seq<Inflection>) returns (after: seq<Inflection>)
    requires PositivePrices(data)
    ensures Step(before, after, 51, days, Rating51(data, days))
  {
    after := before;
    assert Gate(51) == 47;
    if days >= 47 {
      var a := Analyze51(data, days);
      after := before + [Inflection(51, a)];
    }
  }

  method CollectInflections(data: seq<Bar>, days: int) returns (inflections: seq<Inflection>)
    requires PositivePrices(data)
    ensures inflections == InflectionsFor(data, days)
  {
    var s1 := Collect9(data, days, []);
    var s2 := Collect13(data, days, s1);
    var s3 := Collect26(data, days, s2);
    var s4 := Collect33(data, days, s3);
    var s5 := Collect42(data, days, s4);
    inflections := Collect51(data, days, s5);
    StepsBuildGatedAll(days, Rating9(data, days), Rating13(data, days), Rating26(data, days),
                       Rating33(data, days), Rating42(data, days), Rating51(data, days),
                       s1, s2, s3, s4, s5, inflections);
  }

  /** The rated checkpoints whose gate the day count reaches, by an independent filter. */
  function ReachedDays(points: seq<nat>, days: int): (r: seq<nat>)
  {
    if |points| == 0 then []
    else
      var last := points[|points| - 1];
      ReachedDays(points[..|points| - 1], days) + (if days >= Gate(last) then [last] else [])
  }

  function DaysOf(inflections: seq<Inflection>): (r: seq<nat>)
    ensures |r| == |inflections| && forall k :: 0 <= k < |r| ==> r[k] == inflections[k].day
  {
    seq(|inflections|, k requires 0 <= k < |inflections| => inflections[k].day)
  }

  /** The gated checkpoints written out per range of day counts. */
  lemma GatedAllCases(days: int, r9: Rating, r13: Rating, r26: Rating, r33: Rating, r42: Rating,
                     r51: Rating, g: seq<Inflection>)
    requires g == GatedAll(days, r9, r13, r26, r33, r42, r51)
    ensures days < 7 ==> g == []
    ensures 7 <= days < 11 ==> g == [Inflection(9, r9)]
    ensures 11 <= days < 23 ==> g == [Inflection(9, r9), Inflection(13, r13)]
    ensures 23 <= days < 30 ==> g == [Inflection(9, r9), Inflection(13, r13), Inflection(26, r26)]
    ensures 30 <= days < 39 ==>
      g == [Inflection(9, r9), Inflection(13, r13), Inflection(26, r26), Inflection(33, r33)]
    ensures 39 <= days < 47 ==>
      g == [Inflection(9, r9), Inflection(13, r13), Inflection(26, r26), Inflection(33, r33),
            Inflection(42, r42)]
    ensures 47 <= days ==>
      g == [Inflection(9, r9), Inflection(13, r13), Inflection(26, r26), Inflection(33, r33),
            Inflection(42, r42), Inflection(51, r51)]
  {
  }

  /** The analysed checkpoints are exactly the rated days whose gate is reached. */
  lemma GatedAllDays(days: int, r9: Rating, r13: Rating, r26: Rating, r33: Rating, r42: Rating,
                     r51: Rating, g: seq<Inflection>)
    requires g == GatedAll(days, r9, r13, r26, r33, r42, r51)
    ensures DaysOf(g) == ReachedDays(RatedDays, days)
  {
    ReachedRatedDays(days);
    var a, b, c := Gated(9, days, r9), Gated(13, days, r13), Gated(26, days, r26);
    var d, e, f := Gated(33, days, r33), Gated(42, days, r42), Gated(51, days, r51);
    DaysOfGated(9, days, r9);
    DaysOfGated(13, days, r13);
    DaysOfGated(26, days, r26);
    DaysOfGated(33, days, r33);
    DaysOfGated(42, days, r42);
    DaysOfGated(51, days, r51);
    DaysOfAppend(a, b);
    DaysOfAppend(a + b, c);
    DaysOfAppend(a + b + c, d);
    DaysOfAppend(a + b + c + d, e);
    DaysOfAppend(a + b + c + d + e, f);
  }


  predicate Increasing(xs: seq<nat>)
  {
    forall j, k :: 0 <= j < k < |xs| ==> xs[j] < xs[k]
  }

  /** A sequence whose neighbours increase is increasing. */
  lemma {:induction false} IncreasingFromNeighbours(xs: seq<nat>)
    requires forall i :: 0 < i < |xs| ==> xs[i - 1] < xs[i]
    ensures Increasing(xs)
  {
    if |xs| > 1 {
      var init := xs[..|xs| - 1];
      assert forall i :: 0 < i < |init| ==> init[i - 1] < init[i] by {
        forall i | 0 < i < |init| ensures init[i - 1] < init[i] {
          assert init[i - 1] == xs[i - 1] && init[i] == xs[i];
        }
      }
      IncreasingFromNeighbours(init);
      forall j, k | 0 <= j < k < |xs| ensures xs[j] < xs[k] {
        if k < |xs| - 1 {
          assert xs[j] == init[j] && xs[k] == init[k];
        } else if j < k - 1 {
          assert xs[j] == init[j] && xs[k - 1] == init[k - 1];
        }
      }
    }
  }

  lemma RatedDaysIncreasing()
    ensures Increasing(RatedDays)
  {
    forall i | 0 < i < |RatedDays| ensures RatedDays[i - 1] < RatedDays[i] {
      if i == 1 {
      } else if i == 2 {
      } else if i == 3 {
      } else if i == 4 {
      } else {
      }
    }
    IncreasingFromNeighbours(RatedDays);
  }

  /** The independent filter keeps an increasing sequence increasing, and keeps only
      elements of it. */
  lemma {:induction false} ReachedDaysIncreasing(points: seq<nat>, days: int)
    requires Increasing(points)
    ensures Increasing(ReachedDays(points, days))
    ensures forall x :: x in ReachedDays(points, days) ==> x in points
  {
    if |points| > 0 {
      var init := points[..|points| - 1];
      var last := points[|points| - 1];
      ReachedDaysIncreasing(init, days);
      var r := ReachedDays(init, days);
      forall x | x in r ensures x < last && x in points {
        var j :| 0 <= j < |init| && init[j] == x;
        assert points[j] == x;
      }
      if days >= Gate(last) {
        var r' := r + [last];
        forall j, k | 0 <= j < k < |r'| ensures r'[j] < r'[k] {
          assert r'[j] == r[j] && r[j] in r;
          if k < |r| {
            assert r'[k] == r[k];
          }
        }
      }
    }
  }

  /** The analysed checkpoints come in strictly increasing order of day. */
  lemma GatedAllIncreasing(days: int, r9: Rating, r13: Rating, r26: Rating, r33: Rating, r42: Rating,
                           r51: Rating, g: seq<Inflection>)
    requires g == GatedAll(days, r9, r13, r26, r33, r42, r51)
    ensures forall j, k :: 0 <= j < k < |g| ==> g[j].day < g[k].day
  {
    GatedAllDays(days, r9, r13, r26, r33, r42, r51, g);
    RatedDaysIncreasing();
    ReachedDaysIncreasing(RatedDays, days);
    var d := DaysOf(g);
    forall j, k | 0 <= j < k < |g| ensures g[j].day < g[k].day {
      assert d[j] == g[j].day && d[k] == g[k].day;
    }
  }

  /** The rating of a rated checkpoint among the six. */
  function DayRating(day: nat, r9: Rating, r13: Rating, r26: Rating, r33: Rating, r42: Rating,
                     r51: Rating): Rating
  {
    if day == 9 then r9 else if day == 13 then r13 else if day == 26 then r26
    else if day == 33 then r33 else if day == 42 then r42 else r51
  }

  /** A checkpoint that has reached its gate, is one of the six rated days and carries the
      rating of its own rule. */
  predicate Carries(days: int, e: Inflection, r9: Rating, r13: Rating, r26: Rating, r33: Rating,
                    r42: Rating, r51: Rating)
  {
    days >= Gate(e.day) && e.day in RatedDays && e.rating == DayRating(e.day, r9, r13, r26, r33, r42, r51)
  }

  /** One gated rated checkpoint carries its own rating. */
  lemma GatedCarries(day: nat, days: int, r9: Rating, r13: Rating, r26: Rating, r33: Rating,
                     r42: Rating, r51: Rating)
    requires day in RatedDays
    ensures forall e :: e in Gated(day, days, DayRating(day, r9, r13, r26, r33, r42, r51)) ==> Carries(days, e, r9, r13, r26, r33, r42, r51)
  {
  }

  /** Every analysed checkpoint has reached its gate and carries the rating of its own
      rule; 65, 77 and 88 are never analysed. */
  lemma GatedAllRatings(days: int, r9: Rating, r13: Rating, r26: Rating, r33: Rating, r42: Rating,
                        r51: Rating, g: seq<Inflection>)
    requires g == GatedAll(days, r9, r13, r26, r33, r42, r51)
    ensures forall e :: e in g ==> Carries(days, e, r9, r13, r26, r33, r42, r51)
  {
    GatedCarries(9, days, r9, r13, r26, r33, r42, r51);
    GatedCarries(13, days, r9, r13, r26, r33, r42, r51);
    GatedCarries(26, days, r9, r13, r26, r33, r42, r51);
    GatedCarries(33, days, r9, r13, r26, r33, r42, r51);
    GatedCarries(42, days, r9, r13, r26, r33, r42, r51);
    GatedCarries(51, days, r9, r13, r26, r33, r42, r51);
  }

  /** One more point for the independent filter. */
  lemma ReachedDaysSnoc(points: seq<nat>, x: nat, days: int)
    ensures ReachedDays(points + [x], days) == ReachedDays(points, days) + (if days >= Gate(x) then [x] else [])
  {
    assert (points + [x])[..|points|] == points;
  }

  /** The independent filter over the rated days, one checkpoint at a time. */
  lemma ReachedRatedDays(days: int)
    ensures ReachedDays(RatedDays, days) ==
      (if days >= 7 then [9] else []) + (if days >= 11 then [13] else []) + (if days >= 23 then [26] else [])
      + (if days >= 30 then [33] else []) + (if days >= 39 then [42] else []) + (if days >= 47 then [51] else [])
  {
    ReachedDaysSnoc([], 9, days);
    assert [] + [9] == [9];
    ReachedDaysSnoc([9], 13, days);
    assert [9] + [13] == [9, 13];
    ReachedDaysSnoc([9, 13], 26, days);
    assert [9, 13] + [26] == [9, 13, 26];
    ReachedDaysSnoc([9, 13, 26], 33, days);
    assert [9, 13, 26] + [33] == [9, 13, 26, 33];
    ReachedDaysSnoc([9, 13, 26, 33], 42, days);
    assert [9, 13, 26, 33] + [42] == [9, 13, 26, 33, 42];
    ReachedDaysSnoc([9, 13, 26, 33, 42], 51, days);
    assert [9, 13, 26, 33, 42] + [51] == RatedDays;
  }

  lemma DaysOfAppend(a: seq<Inflection>, b: seq<Inflection>)
    ensures DaysOf(a + b) == DaysOf(a) + DaysOf(b)
  {
  }

  lemma DaysOfGated(day: nat, days: int, rating: Rating)
    ensures DaysOf(Gated(day, days, rating)) == if days >= Gate(day) then [day] else []
  {
  }



  /** When the six rules all give a rating, so does every analysed checkpoint. */
  lemma GatedAllRated(days: int, r9: Rating, r13: Rating, r26: Rating, r33: Rating, r42: Rating,
                      r51: Rating, g: seq<Inflection>)
    requires g == GatedAll(days, r9, r13, r26, r33, r42, r51)
    requires days >= 0 ==> r9.Rated? && r13.Rated? && r26.Rated? && r33.Rated? && r42.Rated? && r51.Rated?
    ensures forall e :: e in g ==> e.rating.Rated?
  {
    GatedAllRatings(days, r9, r13, r26, r33, r42, r51, g);
  }

  /** Every checkpoint rated inside the analysis is `Rated`: neither the insufficient-data
      result nor an empty window. */
  lemma InflectionsRated(data: seq<Bar>, days: int)
    requires |data| >= MinBars && PositivePrices(data)
    ensures forall e :: e in InflectionsFor(data, days) ==> e.rating.Rated?
  {
    GatedAllRated(days, Rating9(data, days), Rating13(data, days), Rating26(data, days),
                  Rating33(data, days), Rating42(data, days), Rating51(data, days), InflectionsFor(data, days));
  }


  /** The active signals: the checkpoints with strength at least 60, in order. */
  function ActiveOf(inflections: seq<Inflection>): (r: seq<ActiveSignal>)
  {
    if |inflections| == 0 then []
    else
      var last := inflections[|inflections| - 1];
      ActiveOf(inflections[..|inflections| - 1])
      + (if StrengthOf(last.rating) >= ActiveThreshold
         then [ActiveSignal(last.day, last.rating.signal, last.rating.strength)] else [])
  }

  /** Checkpoint k of the list is rated at least 60 with the signal's day, label and strength. */
  predicate ActiveSource(inflections: seq<Inflection>, k: int, a: ActiveSignal)
  {
    0 <= k < |inflections| && inflections[k].rating == Rated(a.signal, a.strength) &&
    inflections[k].day == a.day && a.strength >= ActiveThreshold
  }

  /** A signal is active exactly when it comes from a checkpoint rated at least 60, with
      that checkpoint's day, label and strength. */
  lemma {:induction false} ActiveOfMembers(inflections: seq<Inflection>)
    ensures forall a :: a in ActiveOf(inflections) <==> exists k :: ActiveSource(inflections, k, a)
    ensures |ActiveOf(inflections)| <= |inflections|
    decreases |inflections|
  {
    if |inflections| > 0 {
      var prefix := inflections[..|inflections| - 1];
      ActiveOfMembers(prefix);
      forall a, k | ActiveSource(prefix, k, a)
        ensures ActiveSource(inflections, k, a)
      {
        assert prefix[k] == inflections[k];
      }
      forall a | a in ActiveOf(inflections)
        ensures exists k :: ActiveSource(inflections, k, a)
      {
        if a !in ActiveOf(prefix) {
          assert ActiveSource(inflections, |inflections| - 1, a);
        }
      }
      forall a | exists k :: ActiveSource(inflections, k, a)
        ensures a in ActiveOf(inflections)
      {
        var k :| ActiveSource(inflections, k, a);
        if k < |prefix| {
          assert prefix[k] == inflections[k];
          assert ActiveSource(prefix, k, a);
        }
      }
    }
  }

  /** With strictly increasing checkpoint days the active days strictly increase too. */
  lemma {:induction false} ActiveOfOrdered(inflections: seq<Inflection>)
    requires forall j, k :: 0 <= j < k < |inflections| ==> inflections[j].day < inflections[k].day
    ensures forall j, k :: 0 <= j < k < |ActiveOf(inflections)| ==> ActiveOf(inflections)[j].day < ActiveOf(inflections)[k].day
    decreases |inflections|
  {
    if |inflections| > 0 {
      var prefix := inflections[..|inflections| - 1];
      ActiveOfOrdered(prefix);
      ActiveOfMembers(prefix);
      var p := ActiveOf(prefix);
      forall j | 0 <= j < |p|
        ensures p[j].day < inflections[|inflections| - 1].day
      {
        assert p[j] in p;
        var k :| ActiveSource(prefix, k, p[j]);
        assert prefix[k] == inflections[k];
      }
    }
  }

  /** The loop that collects the active signals. */
  method SelectActive(inflections: seq<Inflection>) returns (active: seq<ActiveSignal>)
    ensures active == ActiveOf(inflections)
  {
    active := [];
    for k := 0 to |inflections|
      invariant active == ActiveOf(inflections[..k])
    {
      assert inflections[..k + 1][..k] == inflections[..k];
      var rating := inflections[k].rating;
      if StrengthOf(rating) >= ActiveThreshold {
        active := active + [ActiveSignal(inflections[k].day, rating.signal, rating.strength)];
      }
    }
    assert inflections[..|inflections|] == inflections;
  }

  /** The analysis of a series: refused below 52 bars, else the low of the last 120 bars,
      the day count, the Ichimoku values, the gated checkpoints and the active signals. */
  function AnalyzeAll(data: seq<Bar>): (r: Report)
    requires PositivePrices(data)
    ensures r.TooFewBars? <==> |data| < MinBars
  {
    if |data| < MinBars then TooFewBars
    else
      var low := FindLowestPoint(data, Lookback).value;
      LowPositive(data);
      var last := data[|data| - 1];
      var days := DaysSinceLow(last.date, low.date);
      var inflections := InflectionsFor(data, days);
      Analysis(last.date, low.date, low.low, days, last.close, GainPct(last.close, low.low),
               CalculateIchimoku(data).value, inflections, ActiveOf(inflections))
  }

  /** The lowest low of a non-empty positive series is positive. */
  lemma LowPositive(data: seq<Bar>)
    requires PositivePrices(data) && |data| > 0
    ensures FindLowestPoint(data, Lookback).Some? && FindLowestPoint(data, Lookback).value.low > 0.0
  {
    LowestPointIsEarliestMinimum(data, Lookback);
    var w := LowWindow(data, Lookback);
    var i :| 0 <= i < |w| && FindLowestPoint(data, Lookback).value.low == w[i].low;
    assert w[i] in data;
  }

  method AnalyzeAllInflections(data: seq<Bar>) returns (r: Report)
    requires PositivePrices(data)
    ensures r == AnalyzeAll(data)
  {
    if |data| < MinBars {
      return TooFewBars;
    }
    LowPositive(data);
    var low := FindLowestPoint(data, Lookback).value;
    var last := data[|data| - 1];
    var days := DaysSinceLow(last.date, low.date);
    var ichimoku := CalculateIchimoku(data).value;
    var inflections := CollectInflections(data, days);
    var active := SelectActive(inflections);
    var gain := GainPct(last.close, low.low);
    r := Analysis(last.date, low.date, low.low, days, last.close, gain, ichimoku, inflections, active);
  }

    /** The report's prices: the current price is the last close, the day count runs from
      the lowest point, and the lowest point is no higher than any low of the last 120 bars. */
  lemma AnalyzeAllLow(data: seq<Bar>)
    requires PositivePrices(data) && |data| >= MinBars
    ensures AnalyzeAll(data).currentPrice == data[|data| - 1].close
    ensures AnalyzeAll(data).daysSinceLow == data[|data| - 1].date - AnalyzeAll(data).lowDate
    ensures forall j :: 0 <= j < |data| && |data| - Lookback <= j ==> AnalyzeAll(data).lowPrice <= data[j].low
  {
    LowestInLookback(data);
  }

  /** The report's checkpoints: exactly the rated days whose gate the day count reaches, in
      increasing order, all rated; its active signals are at least 60 strong, in the same order. */
  lemma AnalyzeAllCheckpoints(data: seq<Bar>)
    requires PositivePrices(data) && |data| >= MinBars
    ensures DaysOf(AnalyzeAll(data).inflections) == ReachedDays(RatedDays, AnalyzeAll(data).daysSinceLow)
    ensures forall j, k :: 0 <= j < k < |AnalyzeAll(data).inflections| ==>
      AnalyzeAll(data).inflections[j].day < AnalyzeAll(data).inflections[k].day
    ensures forall e :: e in AnalyzeAll(data).inflections ==> e.rating.Rated?
    ensures forall a :: a in AnalyzeAll(data).active ==> a.strength >= ActiveThreshold
    ensures forall j, k :: 0 <= j < k < |AnalyzeAll(data).active| ==>
      AnalyzeAll(data).active[j].day < AnalyzeAll(data).active[k].day
  {
    var r := AnalyzeAll(data);
    var days := r.daysSinceLow;
    var g := InflectionsFor(data, days);
    assert r.inflections == g && r.active == ActiveOf(g);
    GatedAllDays(days, Rating9(data, days), Rating13(data, days), Rating26(data, days),
                 Rating33(data, days), Rating42(data, days), Rating51(data, days), g);
    GatedAllIncreasing(days, Rating9(data, days), Rating13(data, days), Rating26(data, days),
                       Rating33(data, days), Rating42(data, days), Rating51(data, days), g);
    InflectionsRated(data, days);
    ActiveOfMembers(g);
    ActiveOfOrdered(g);
  }

}
