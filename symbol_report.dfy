/** The single-symbol report of analyze_inflection_005930.py: the significant lows of a
    daily series (bars no bar within 20 bars on either side undercuts), the position of
    the latest low relative to the nine inflection days, and the day-window and
    price-tier recommendation. The console output is not modelled; what each step
    decides is. */
module SymbolReport {
  import opened Series

  /** The nine inflection days of the report, in order. */
  const InflectionDays: seq<nat> := [9, 13, 26, 33, 42, 51, 65, 77, 88]

  /** The default half-width of the significant-low window. */
  const LowWindow: nat := 20

  /** The number of recent bars the price position is measured against. */
  const RecentBars: nat := 20

  /** A significant low: its row index, its date and its low price. */
  datatype Low = Low(index: nat, date: int, price: real)

  // ---------------------------------------------------------------------------------
  // Significant lows
  // ---------------------------------------------------------------------------------

  /** No bar within `window` rows of row i has a strictly lower low; equal lows do not
      disqualify row i. */
  predicate IsLocalMin(data: seq<Bar>, i: int, window: nat)
    requires window <= i < |data| - window
  {
    forall j :: i - window <= j <= i + window && j != i ==> !(data[j].low < data[i].low)
  }

  /** The rows in [window, hi) that are local minima, in increasing order. */
  function SignificantIn(data: seq<Bar>, window: nat, hi: int): (r: seq<nat>)
    requires hi <= window || hi <= |data| - window
    ensures forall k :: 0 <= k < |r| ==> window <= r[k] < hi
    decreases hi - window
  {
    if hi <= window then []
    else SignificantIn(data, window, hi - 1) + (if IsLocalMin(data, hi - 1, window) then [hi - 1] else [])
  }

  /** The significant lows of the whole series: every candidate row from `window` up to
      but excluding `|data| - window`. */
  function SignificantLows(data: seq<Bar>, window: nat): (r: seq<nat>)
    ensures forall k :: 0 <= k < |r| ==> window <= r[k] < |data| - window
  {
    SignificantIn(data, window, |data| - window)
  }

  /** The low records of a list of rows. */
  function LowsOf(data: seq<Bar>, rows: seq<nat>): (r: seq<Low>)
    requires forall k :: 0 <= k < |rows| ==> rows[k] < |data|
    ensures |r| == |rows|
  {
    seq(|rows|, k requires 0 <= k < |rows| => Low(rows[k], data[rows[k]].date, data[rows[k]].low))
  }

  lemma LowsOfSnoc(data: seq<Bar>, rows: seq<nat>, i: nat)
    requires forall k :: 0 <= k < |rows| ==> rows[k] < |data|
    requires i < |data|
    ensures LowsOf(data, rows + [i]) == LowsOf(data, rows) + [Low(i, data[i].date, data[i].low)]
  {
  }

  /** `find_significant_lows`: for each candidate row, a scan of the rows around it that
      stops at the first strictly lower low. */
  method FindSignificantLows(data: seq<Bar>, window: nat) returns (lows: seq<Low>)
    ensures forall k :: 0 <= k < |SignificantLows(data, window)| ==> SignificantLows(data, window)[k] < |data|
    ensures lows == LowsOf(data, SignificantLows(data, window))
  {
    lows := [];
    var i := window;
    while i < |data| - window
      invariant window <= i && (i <= |data| - window || i == window)
      invariant lows == LowsOf(data, SignificantIn(data, window, i))
    {
      var currentLow := data[i].low;
      var isLocalMin := true;
      var j := i - window;
      while j < i + window + 1
        invariant i - window <= j <= i + window + 1
        invariant isLocalMin
        invariant forall k :: i - window <= k < j && k != i ==> !(data[k].low < currentLow)
      {
        if j != i && data[j].low < currentLow {
          isLocalMin := false;
          break;
        }
        j := j + 1;
      }
      assert isLocalMin <==> IsLocalMin(data, i, window);
      LowsOfSnoc(data, SignificantIn(data, window, i), i);
      if isLocalMin {
        lows := lows + [Low(i, data[i].date, currentLow)];
      }
      i := i + 1;
    }
    assert SignificantIn(data, window, i) == SignificantLows(data, window);
  }

  /** A row is a significant low exactly when it is a candidate row and a local minimum. */
  lemma {:induction false} SignificantInMembers(data: seq<Bar>, window: nat, hi: int, i: int)
    requires hi <= window || hi <= |data| - window
    ensures i in SignificantIn(data, window, hi) <==> window <= i < hi && IsLocalMin(data, i, window)
    decreases hi - window
  {
    if hi > window {
      SignificantInMembers(data, window, hi - 1, i);
    }
  }

  /** The significant lows come in strictly increasing row order. */
  lemma {:induction false} SignificantInIncreasing(data: seq<Bar>, window: nat, hi: int)
    requires hi <= window || hi <= |data| - window
    ensures forall j, k :: 0 <= j < k < |SignificantIn(data, window, hi)| ==>
      SignificantIn(data, window, hi)[j] < SignificantIn(data, window, hi)[k]
    decreases hi - window
  {
    if hi > window {
      SignificantInIncreasing(data, window, hi - 1);
      var before := SignificantIn(data, window, hi - 1);
      var r := SignificantIn(data, window, hi);
      forall j, k | 0 <= j < k < |r| ensures r[j] < r[k] {
        assert r[j] == before[j];
        if k < |before| {
          assert r[k] == before[k];
        }
      }
    }
  }

  /** The significant lows of a series: exactly the local minima among rows
      [window, |data| - window), in increasing order; none when the series has at most
      2 * window rows. */
  lemma SignificantLowsFacts(data: seq<Bar>, window: nat)
    ensures forall i :: i in SignificantLows(data, window) <==>
      window <= i < |data| - window && IsLocalMin(data, i, window)
    ensures forall j, k :: 0 <= j < k < |SignificantLows(data, window)| ==>
      SignificantLows(data, window)[j] < SignificantLows(data, window)[k]
    ensures |data| < 2 * window + 1 ==> SignificantLows(data, window) == []
  {
    forall i {
      SignificantInMembers(data, window, |data| - window, i);
    }
    SignificantInIncreasing(data, window, |data| - window);
  }

  /** The latest significant low is at least `window` rows before the last row. */
  lemma LatestLowAge(data: seq<Bar>, window: nat)
    requires |SignificantLows(data, window)| > 0
    ensures |data| - 1 - SignificantLows(data, window)[|SignificantLows(data, window)| - 1] >= window
  {
  }

  // ---------------------------------------------------------------------------------
  // Position relative to the inflection days
  // ---------------------------------------------------------------------------------

  /** Where the day count stands relative to one inflection day. */
  datatype Status = FarAhead | Approaching | InZone | JustPassed | Passed

  /** The band of offsets (day count minus inflection day) of each status. */
  predicate InBand(s: Status, distance: int)
  {
    match s
    case FarAhead => distance < -5
    case Approaching => -5 <= distance <= -3
    case InZone => -3 < distance < 3
    case JustPassed => 3 <= distance <= 5
    case Passed => distance > 5
  }

  /** The status of an offset: the band the offset lies in, and that band is the only
      one that contains it. */
  function StatusOf(distance: int): (s: Status)
    ensures InBand(s, distance)
    ensures forall t :: InBand(t, distance) ==> t == s
  {
    if distance < -5 then FarAhead
    else if -5 <= distance <= -3 then Approaching
    else if -3 < distance < 3 then InZone
    else if 3 <= distance <= 5 then JustPassed
    else Passed
  }

  /** One row of the position table. */
  datatype Position = Position(day: nat, distance: int, status: Status)

  /** The position table as a value. */
  function PositionsFor(daysSinceLow: int): (r: seq<Position>)
    ensures |r| == |InflectionDays|
  {
    seq(|InflectionDays|, k requires 0 <= k < |InflectionDays| =>
      Position(InflectionDays[k], daysSinceLow - InflectionDays[k], StatusOf(daysSinceLow - InflectionDays[k])))
  }
  /** `analyze_inflection`'s status loop: one row per inflection day. */
  method PositionTable(daysSinceLow: int) returns (rows: seq<Position>)
    ensures rows == PositionsFor(daysSinceLow)
  {
    rows := [];
    for k := 0 to |InflectionDays|
      invariant rows == PositionsFor(daysSinceLow)[..k]
    {
      var distance := daysSinceLow - InflectionDays[k];
      rows := rows + [Position(InflectionDays[k], distance, StatusOf(distance))];
    }
  }


  /** The inflection days within three days of the day count, in order. */
  function NearDays(days: seq<nat>, daysSinceLow: int): (r: seq<nat>)
  {
    if |days| == 0 then []
    else
      var last := days[|days| - 1];
      NearDays(days[..|days| - 1], daysSinceLow)
      + (if -3 <= daysSinceLow - last <= 3 then [last] else [])
  }

  /** `analyze_inflection`'s detail loop: the inflection days whose offset is at most 3
      in absolute value get a detailed analysis. */
  method DetailedDays(daysSinceLow: int) returns (detailed: seq<nat>)
    ensures detailed == NearDays(InflectionDays, daysSinceLow)
  {
    detailed := [];
    for k := 0 to |InflectionDays|
      invariant detailed == NearDays(InflectionDays[..k], daysSinceLow)
    {
      assert InflectionDays[..k + 1][..k] == InflectionDays[..k];
      var distance := daysSinceLow - InflectionDays[k];
      if -3 <= distance <= 3 {
        detailed := detailed + [InflectionDays[k]];
      }
    }
    assert InflectionDays[..|InflectionDays|] == InflectionDays;
  }

  /** A day gets a detailed analysis exactly when it is an inflection day within three
      days of the day count. */
  lemma {:induction false} NearDaysMembers(days: seq<nat>, daysSinceLow: int, d: nat)
    ensures d in NearDays(days, daysSinceLow) <==> d in days && -3 <= daysSinceLow - d <= 3
  {
    if |days| > 0 {
      var init := days[..|days| - 1];
      NearDaysMembers(init, daysSinceLow, d);
      assert days == init + [days[|days| - 1]];
    }
  }

  /** A detailed analysis is made exactly for the offsets of the in-zone status and for
      the two boundary offsets -3 and 3 (which the status table calls approaching and
      just passed). */
  lemma DetailedVersusStatus(distance: int)
    ensures -3 <= distance <= 3 <==> StatusOf(distance) == InZone || distance == -3 || distance == 3
    ensures distance == -3 ==> StatusOf(distance) == Approaching
    ensures distance == 3 ==> StatusOf(distance) == JustPassed
  {
  }

  // ---------------------------------------------------------------------------------
  // Recommendation
  // ---------------------------------------------------------------------------------

  /** The day-window recommendation of `recommend_action`. */
  datatype Advice = ShortTermBuy13 | AlignedBuy26 | WaveBuy42 | StrongBuy51 | Caution65 | TakeProfit77
                  | NewCycle88 | Waiting

  /** First and last day of the window of a recommendation other than waiting. */
  function WindowStart(a: Advice): int
  {
    match a
    case ShortTermBuy13 => 11
    case AlignedBuy26 => 24
    case WaveBuy42 => 40
    case StrongBuy51 => 49
    case Caution65 => 63
    case TakeProfit77 => 75
    case NewCycle88 => 86
    case Waiting => 0
  }

  function WindowEnd(a: Advice): int
  {
    match a
    case ShortTermBuy13 => 15
    case AlignedBuy26 => 28
    case WaveBuy42 => 44
    case StrongBuy51 => 53
    case Caution65 => 67
    case TakeProfit77 => 79
    case NewCycle88 => 90
    case Waiting => -1
  }

  /** The day count lies in the window of a recommendation (waiting has no window). */
  predicate InWindow(a: Advice, days: int)
  {
    WindowStart(a) <= days <= WindowEnd(a)
  }

  /** The day count lies in one of the seven windows. */
  predicate InSomeWindow(days: int)
  {
    InWindow(ShortTermBuy13, days) || InWindow(AlignedBuy26, days) || InWindow(WaveBuy42, days) ||
    InWindow(StrongBuy51, days) || InWindow(Caution65, days) || InWindow(TakeProfit77, days) ||
    InWindow(NewCycle88, days)
  }

  /** The first window the day count lies in, or waiting when it lies in none. Because
      the windows are pairwise disjoint, the first match is the only one. */
  function AdviceFor(days: int): (a: Advice)
    ensures a != Waiting ==> InWindow(a, days)
    ensures a == Waiting <==> !InSomeWindow(days)
    ensures forall b :: InWindow(b, days) ==> b == a
  {
    if 11 <= days <= 15 then ShortTermBuy13
    else if 24 <= days <= 28 then AlignedBuy26
    else if 40 <= days <= 44 then WaveBuy42
    else if 49 <= days <= 53 then StrongBuy51
    else if 63 <= days <= 67 then Caution65
    else if 75 <= days <= 79 then TakeProfit77
    else if 86 <= days <= 90 then NewCycle88
    else Waiting
  }

  /** The price-change recommendation of `recommend_action`. */
  datatype PriceTier = Overheated | Rising | EarlyRise | Retesting

  /** The tier of a percentage gain from the low: above 10, above 5, above 0, or none. */
  function TierOf(change: real): (t: PriceTier)
    ensures t == Overheated <==> change > 10.0
    ensures t == Rising <==> 5.0 < change <= 10.0
    ensures t == EarlyRise <==> 0.0 < change <= 5.0
    ensures t == Retesting <==> change <= 0.0
  {
    if change > 10.0 then Overheated
    else if change > 5.0 then Rising
    else if change > 0.0 then EarlyRise
    else Retesting
  }

  /** A higher gain never gets a lower tier. */
  lemma TierMonotone(x: real, y: real)
    requires x <= y
    ensures TierRank(TierOf(x)) <= TierRank(TierOf(y))
  {
  }

  function TierRank(t: PriceTier): nat
  {
    match t
    case Retesting => 0
    case EarlyRise => 1
    case Rising => 2
    case Overheated => 3
  }

  /** Position of the price in the range of the last 20 bars, as a percentage; error
      when the range is empty (Python's ZeroDivisionError). */
  function PricePosition(price: real, recentLow: real, recentHigh: real): (r: Option<real>)
    ensures r.None? <==> recentHigh == recentLow
    ensures r.Some? && recentLow < recentHigh ==> (r.value >= 0.0 <==> price >= recentLow)
    ensures r.Some? && recentLow < recentHigh ==> (r.value <= 100.0 <==> price <= recentHigh)
  {
    if recentHigh == recentLow then None
    else
      PositionBounds(price, recentLow, recentHigh);
      Some((price - recentLow) / (recentHigh - recentLow) * 100.0)
  }

  lemma PositionBounds(price: real, lo: real, hi: real)
    requires lo != hi
    ensures lo < hi ==> ((price - lo) / (hi - lo) * 100.0 >= 0.0 <==> price >= lo)
    ensures lo < hi ==> ((price - lo) / (hi - lo) * 100.0 <= 100.0 <==> price <= hi)
  {
    if lo < hi {
      RatioVersusOne(price - lo, hi - lo);
      var q := (price - lo) / (hi - lo);
      assert q * (hi - lo) == price - lo;
      if q < 0.0 {
        assert q * (hi - lo) < 0.0;
      }
    }
  }

  /** A well-formed bar: its close lies between its low and its high. */
  predicate ConsistentBars(data: seq<Bar>)
  {
    forall i :: 0 <= i < |data| ==> data[i].low <= data[i].close <= data[i].high
  }

  /** The highest high and the lowest low of the last 20 bars. */
  function RecentHigh(data: seq<Bar>): real
    requires |data| > 0
  {
    Max(Highs(Tail(data, RecentBars)))
  }

  function RecentLow(data: seq<Bar>): real
    requires |data| > 0
  {
    Min(Lows(Tail(data, RecentBars)))
  }

  /** On well-formed bars the last close lies within the recent range, so the price
      position is a percentage between 0 and 100. */
  lemma PricePositionIsPercentage(data: seq<Bar>)
    requires |data| > 0 && ConsistentBars(data)
    ensures RecentLow(data) <= data[|data| - 1].close <= RecentHigh(data)
    ensures PricePosition(data[|data| - 1].close, RecentLow(data), RecentHigh(data)).Some? ==>
      0.0 <= PricePosition(data[|data| - 1].close, RecentLow(data), RecentHigh(data)).value <= 100.0
  {
    var t := Tail(data, RecentBars);
    var last := t[|t| - 1];
    assert last == data[|data| - 1];
    assert Highs(t)[|t| - 1] == last.high && Lows(t)[|t| - 1] == last.low;
  }

  /** The recommendation: the price position and the two dispatches. */
  datatype Recommendation = Recommendation(position: real, advice: Advice, tier: PriceTier)

  /** `recommend_action`: the position needs a non-empty recent range, otherwise the
      division fails before anything is recommended. */
  function RecommendAction(daysSinceLow: int, priceChange: real, data: seq<Bar>): (r: Option<Recommendation>)
    requires |data| > 0
    ensures r.None? <==> RecentHigh(data) == RecentLow(data)
    ensures r.Some? ==> r.value.advice == AdviceFor(daysSinceLow) && r.value.tier == TierOf(priceChange)
  {
    match PricePosition(data[|data| - 1].close, RecentLow(data), RecentHigh(data))
    case None => None
    case Some(p) => Some(Recommendation(p, AdviceFor(daysSinceLow), TierOf(priceChange)))
  }

  // ---------------------------------------------------------------------------------
  // The whole report
  // ---------------------------------------------------------------------------------

  /** The outcome of `analyze_inflection`: the errors it stops on and the decisions of a
      complete run. */
  datatype Outcome =
    | NoData          // `data[-1]` on an empty series (IndexError)
    | NoLows          // no significant low: the report stops early
    | ZeroLowPrice    // the gain divides by a zero low price (ZeroDivisionError)
    | FlatRange       // the price position divides by an empty 20-bar range (ZeroDivisionError)
    | Report(currentPrice: real, low: Low, daysSinceLow: int, priceChange: real,
             positions: seq<Position>, detailed: seq<nat>, recommendation: Recommendation)

  /** The percentage gain of the price over the low. */
  function ChangePct(price: real, low: real): real
    requires low != 0.0
  {
    (price - low) / low * 100.0
  }


  /** The whole analysis of a series with the default window of 20. */
  function AnalyzeSymbol(data: seq<Bar>): (r: Outcome)
    ensures r.NoData? <==> |data| == 0
    ensures r.NoLows? <==> |data| > 0 && |SignificantLows(data, LowWindow)| == 0
  {
    if |data| == 0 then NoData
    else
      var rows := SignificantLows(data, LowWindow);
      if |rows| == 0 then NoLows
      else
        var i := rows[|rows| - 1];
        var low := Low(i, data[i].date, data[i].low);
        var current := data[|data| - 1];
        if low.price == 0.0 then ZeroLowPrice
        else
          var days := |data| - 1 - i;
          var change := ChangePct(current.close, low.price);
          match RecommendAction(days, change, data)
          case None => FlatRange
          case Some(rec) =>
            Report(current.close, low, days, change, PositionsFor(days), NearDays(InflectionDays, days), rec)
  }

  /** On a series of positive prices the gain never divides by zero. */
  lemma PositivePricesHaveNonZeroLow(data: seq<Bar>)
    requires PositivePrices(data)
    ensures !AnalyzeSymbol(data).ZeroLowPrice?
    ensures AnalyzeSymbol(data).FlatRange? ==> RecentHigh(data) == RecentLow(data)
  {
    if |data| > 0 && |SignificantLows(data, LowWindow)| > 0 {
      var rows := SignificantLows(data, LowWindow);
      assert rows[|rows| - 1] < |data|;
    }
  }

  /** The report in the order the script computes it: the lows, the status table, the
      detailed days and the recommendation. */
  method AnalyzeInflection(data: seq<Bar>) returns (r: Outcome)
    ensures r == AnalyzeSymbol(data)
  {
    if |data| == 0 {
      return NoData;
    }
    var current := data[|data| - 1];
    var lows := FindSignificantLows(data, LowWindow);
    ghost var rows := SignificantLows(data, LowWindow);
    if |lows| == 0 {
      return NoLows;
    }
    var latest := lows[|lows| - 1];
    assert latest == Low(rows[|rows| - 1], data[rows[|rows| - 1]].date, data[rows[|rows| - 1]].low);
    var days := |data| - 1 - latest.index;
    if latest.price == 0.0 {
      return ZeroLowPrice;
    }
    var change := ChangePct(current.close, latest.price);
    var positions := PositionTable(days);
    var detailed := DetailedDays(days);
    var recommendation := RecommendAction(days, change, data);
    if recommendation.None? {
      return FlatRange;
    }
    r := Report(current.close, latest, days, change, positions, detailed, recommendation.value);
  }

  /** The low of a complete report is the latest significant low, at least 20 rows
      before the last row. */
  lemma ReportLow(data: seq<Bar>)
    requires AnalyzeSymbol(data).Report?
    ensures AnalyzeSymbol(data).low.index in SignificantLows(data, LowWindow)
    ensures forall i :: i in SignificantLows(data, LowWindow) ==> i <= AnalyzeSymbol(data).low.index
    ensures AnalyzeSymbol(data).daysSinceLow == |data| - 1 - AnalyzeSymbol(data).low.index >= LowWindow
  {
    var rows := SignificantLows(data, LowWindow);
    var i := rows[|rows| - 1];
    assert AnalyzeSymbol(data).low.index == i && AnalyzeSymbol(data).daysSinceLow == |data| - 1 - i;
    SignificantInIncreasing(data, LowWindow, |data| - LowWindow);
    LatestLowAge(data, LowWindow);
    forall j | j in rows ensures j <= i {
      var k :| 0 <= k < |rows| && rows[k] == j;
    }
  }

  /** The detailed days of a complete report are the inflection days within three days
      of the day count. */
  lemma ReportDetailed(data: seq<Bar>)
    requires AnalyzeSymbol(data).Report?
    ensures forall d :: d in AnalyzeSymbol(data).detailed <==>
      d in InflectionDays && -3 <= AnalyzeSymbol(data).daysSinceLow - d <= 3
  {
    var r := AnalyzeSymbol(data);
    assert r.detailed == NearDays(InflectionDays, r.daysSinceLow);
    forall d {
      NearDaysMembers(InflectionDays, r.daysSinceLow, d);
    }
  }

  /** Every row of the status table of a complete report is one inflection day, in order,
      with the band of its offset. */
  lemma ReportPositions(data: seq<Bar>)
    requires AnalyzeSymbol(data).Report?
    ensures |AnalyzeSymbol(data).positions| == |InflectionDays|
    ensures forall k :: 0 <= k < |AnalyzeSymbol(data).positions| ==>
      AnalyzeSymbol(data).positions[k].day == InflectionDays[k] &&
      InBand(AnalyzeSymbol(data).positions[k].status, AnalyzeSymbol(data).daysSinceLow - InflectionDays[k])
  {
    var r := AnalyzeSymbol(data);
    assert r.positions == PositionsFor(r.daysSinceLow);
  }

  /** The recommendation of a complete report is the window of the day count and the tier
      of the gain. */
  lemma ReportRecommendation(data: seq<Bar>)
    requires AnalyzeSymbol(data).Report?
    ensures AnalyzeSymbol(data).recommendation.advice == AdviceFor(AnalyzeSymbol(data).daysSinceLow)
    ensures AnalyzeSymbol(data).recommendation.tier == TierOf(AnalyzeSymbol(data).priceChange)
  {
  }


}
