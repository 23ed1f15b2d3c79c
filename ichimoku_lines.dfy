/** The pandas Ichimoku columns (identical in predict_model_enhanced_complete.py and
    ichimoku_inflection_analysis.py), pandas trailing and centred rolling windows, and
    the "significant point" row filter both pandas variants use to find swing lows. */
module IchimokuLines {
  import opened Series
  import opened Frames

  /** pandas `rolling(w).max()` at row i (min_periods = w). */
  function RollMax(xs: seq<real>, w: nat, i: nat): (r: Option<real>)
    requires 1 <= w && i < |xs|
    ensures r.Some? <==> i + 1 >= w
    ensures r.Some? ==> forall j :: i + 1 - w <= j <= i ==> xs[j] <= r.value
    ensures r.Some? ==> exists j :: i + 1 - w <= j <= i && xs[j] == r.value
  {
    if i + 1 < w then None
    else
      var win := xs[i + 1 - w..i + 1];
      assert forall j :: i + 1 - w <= j <= i ==> xs[j] == win[j - (i + 1 - w)];
      Some(Max(win))
  }

  /** pandas `rolling(w).min()` at row i (min_periods = w). */
  function RollMin(xs: seq<real>, w: nat, i: nat): (r: Option<real>)
    requires 1 <= w && i < |xs|
    ensures r.Some? <==> i + 1 >= w
    ensures r.Some? ==> forall j :: i + 1 - w <= j <= i ==> r.value <= xs[j]
    ensures r.Some? ==> exists j :: i + 1 - w <= j <= i && xs[j] == r.value
  {
    if i + 1 < w then None
    else
      var win := xs[i + 1 - w..i + 1];
      assert forall j :: i + 1 - w <= j <= i ==> xs[j] == win[j - (i + 1 - w)];
      Some(Min(win))
  }

  /** The midpoint of the highest high and the lowest low of the bars in [lo, hi). */
  function WindowMid(s: seq<Bar>, lo: nat, hi: nat): real
    requires lo < hi <= |s|
  {
    (Max(Highs(s)[lo..hi]) + Min(Lows(s)[lo..hi])) / 2.0
  }

  /** (rolling max of highs + rolling min of lows) / 2 over a trailing window of w bars:
      from row w - 1 on, the midpoint of the highest high and the lowest low of the w bars
      ending at that row. */
  function MidLine(s: seq<Bar>, w: nat): (r: Column)
    requires w >= 1
    ensures |r| == |s|
    ensures forall i :: 0 <= i < |s| ==> (r[i].Some? <==> i + 1 >= w)
    ensures forall i :: w - 1 <= i < |s| ==>
              r[i] == Some(WindowMid(s, i + 1 - w, i + 1))
  {
    seq(|s|, i requires 0 <= i < |s| => MidCell(s, w, i))
  }

  /** Row i of `MidLine`. */
  function MidCell(s: seq<Bar>, w: nat, i: nat): (r: Option<real>)
    requires w >= 1 && i < |s|
    ensures r.Some? <==> i + 1 >= w
    ensures i + 1 >= w ==> r == Some(WindowMid(s, i + 1 - w, i + 1))
  {
    Mid(RollMax(Highs(s), w, i), RollMin(Lows(s), w, i))
  }

  /** pandas `shift(k)`: the value computed at row i is stored at row i + k. */
  function ShiftForward(xs: Column, k: nat): (r: Column)
    ensures |r| == |xs|
    ensures forall i :: 0 <= i < |xs| ==> r[i] == (if i >= k then xs[i - k] else None)
  {
    seq(|xs|, i requires 0 <= i < |xs| => if i >= k then xs[i - k] else None)
  }

  /** pandas `shift(-k)` of a fully defined column: row i holds the value of row i + k. */
  function ShiftBackward(xs: seq<real>, k: nat): (r: Column)
    ensures |r| == |xs|
    ensures forall i :: 0 <= i < |xs| ==> r[i] == (if i + k < |xs| then Some(xs[i + k]) else None)
  {
    seq(|xs|, i requires 0 <= i < |xs| => if i + k < |xs| then Some(xs[i + k]) else None)
  }

  /** Conversion line (tenkan-sen): 9-bar midpoint. */
  function TenkanLine(s: seq<Bar>): (r: Column)
    ensures |r| == |s| && forall i :: 0 <= i < |s| ==> (r[i].Some? <==> i >= 8)
    ensures forall i :: 8 <= i < |s| ==>
              r[i] == Some(WindowMid(s, i - 8, i + 1))
  {
    MidLine(s, 9)
  }

  /** Base line (kijun-sen): 26-bar midpoint. */
  function KijunLine(s: seq<Bar>): (r: Column)
    ensures |r| == |s| && forall i :: 0 <= i < |s| ==> (r[i].Some? <==> i >= 25)
    ensures forall i :: 25 <= i < |s| ==>
              r[i] == Some(WindowMid(s, i - 25, i + 1))
  {
    MidLine(s, 26)
  }

  /** Leading span A: (conversion + base) / 2 shifted forward 26 rows. */
  function SpanALine(s: seq<Bar>): (r: Column)
    ensures |r| == |s| && forall i :: 0 <= i < |s| ==> (r[i].Some? <==> i >= 51)
    ensures forall i :: 51 <= i < |s| ==>
              r[i] == Mid(TenkanLine(s)[i - 26], KijunLine(s)[i - 26])
  {
    var tenkan, kijun := TenkanLine(s), KijunLine(s);
    var mid := seq(|s|, i requires 0 <= i < |s| => Mid(tenkan[i], kijun[i]));
    ShiftedRows(mid, 26, 51);
    ShiftForward(mid, 26)
  }

  /** Leading span B: 52-bar midpoint shifted forward 26 rows. */
  function SpanBLine(s: seq<Bar>): (r: Column)
    ensures |r| == |s| && forall i :: 0 <= i < |s| ==> (r[i].Some? <==> i >= 77)
    ensures forall i :: 77 <= i < |s| ==>
              r[i] == Some(WindowMid(s, i - 77, i - 25))
  {
    var mid := MidLine(s, 52);
    ShiftedRows(mid, 26, 77);
    ShiftForward(mid, 26)
  }

  /** From row `from` (at least k) on, the shifted column holds the row k before. */
  lemma ShiftedRows(xs: Column, k: nat, from: nat)
    requires from >= k
    ensures forall i :: from <= i < |xs| ==> ShiftForward(xs, k)[i] == xs[i - k]
  {
  }

  /** Lagging span (chikou): the close 26 rows later, undefined on the last 26 rows. */
  function ChikouLine(s: seq<Bar>): (r: Column)
    ensures |r| == |s|
    ensures forall i :: 0 <= i < |s| ==> (r[i].Some? <==> i + 26 < |s|)
    ensures forall i :: 0 <= i < |s| && i + 26 < |s| ==> r[i] == Some(s[i + 26].close)
  {
    ShiftBackward(Closes(s), 26)
  }

  /** The five Ichimoku columns assigned to a DataFrame whose other columns are `cols`. */
  function WithIchimoku(cols: Columns, s: seq<Bar>): (r: Columns)
    ensures r.Keys == cols.Keys + {Tenkan, Kijun, SpanA, SpanB, Chikou}
    ensures forall c :: c in cols && c !in {Tenkan, Kijun, SpanA, SpanB, Chikou} ==> r[c] == cols[c]
    ensures Aligned(Table(s, cols)) ==> Aligned(Table(s, r))
  {
    cols[Tenkan := TenkanLine(s)][Kijun := KijunLine(s)][SpanA := SpanALine(s)]
        [SpanB := SpanBLine(s)][Chikou := ChikouLine(s)]
  }

  /** The five assigned columns are the five lines. */
  lemma WithIchimokuLines(cols: Columns, s: seq<Bar>)
    ensures var r := WithIchimoku(cols, s);
            r[Tenkan] == TenkanLine(s) && r[Kijun] == KijunLine(s) && r[SpanA] == SpanALine(s) &&
            r[SpanB] == SpanBLine(s) && r[Chikou] == ChikouLine(s)
  {
  }

  /** A table carrying the five Ichimoku columns, as a rule reads them. */
  predicate HasIchimoku(t: Table)
  {
    Aligned(t) && Tenkan in t.cols && Kijun in t.cols && SpanA in t.cols && SpanB in t.cols && Chikou in t.cols
  }

  /** First row of the centred window of width w at row i (pandas `center=True`). */
  function CentredStart(i: int, w: nat): int
  {
    i - w / 2
  }

  /** Last row of the centred window of width w at row i. */
  function CentredEnd(i: int, w: nat): int
  {
    i + (w - 1) / 2
  }

  /** pandas `rolling(w, center=True).min()` at row i: undefined unless the whole window
      of w rows lies inside the series. */
  function CentredMin(xs: seq<real>, w: nat, i: nat): (r: Option<real>)
    requires w >= 1 && i < |xs|
    ensures r.Some? <==> 0 <= CentredStart(i, w) && CentredEnd(i, w) < |xs|
    ensures r.Some? ==> forall j :: CentredStart(i, w) <= j <= CentredEnd(i, w) ==> r.value <= xs[j]
    ensures r.Some? ==> exists j :: CentredStart(i, w) <= j <= CentredEnd(i, w) && r.value == xs[j]
  {
    if 0 <= CentredStart(i, w) && CentredEnd(i, w) < |xs| then
      var win := xs[CentredStart(i, w)..CentredEnd(i, w) + 1];
      assert forall j :: CentredStart(i, w) <= j <= CentredEnd(i, w) ==> xs[j] == win[j - CentredStart(i, w)];
      Some(Min(win))
    else None
  }

  /** pandas `rolling(w, center=True).max()` at row i. */
  function CentredMax(xs: seq<real>, w: nat, i: nat): (r: Option<real>)
    requires w >= 1 && i < |xs|
    ensures r.Some? <==> 0 <= CentredStart(i, w) && CentredEnd(i, w) < |xs|
    ensures r.Some? ==> forall j :: CentredStart(i, w) <= j <= CentredEnd(i, w) ==> xs[j] <= r.value
    ensures r.Some? ==> exists j :: CentredStart(i, w) <= j <= CentredEnd(i, w) && r.value == xs[j]
  {
    if 0 <= CentredStart(i, w) && CentredEnd(i, w) < |xs| then
      var win := xs[CentredStart(i, w)..CentredEnd(i, w) + 1];
      assert forall j :: CentredStart(i, w) <= j <= CentredEnd(i, w) ==> xs[j] == win[j - CentredStart(i, w)];
      Some(Max(win))
    else None
  }

  datatype PointKind = LowPoint | HighPoint

  /** Row p survives `df[df['low'] == rolling_min].dropna()` (or the `high`/`rolling_max`
      version): its extreme equals the centred rolling extreme and no cell of the row is NaN. */
  predicate IsSignificant(t: Table, w: nat, kind: PointKind, p: nat)
    requires Aligned(t) && w >= 1 && p < |t.bars|
  {
    (match kind
     case LowPoint => Eq(Some(t.bars[p].low), CentredMin(Lows(t.bars), w, p))
     case HighPoint => Eq(Some(t.bars[p].high), CentredMax(Highs(t.bars), w, p)))
    && RowComplete(t, p)
  }

  /** The row positions among the first k whose mask entry is true, in row order: pandas
      boolean-mask indexing `df[mask]`. */
  function Selected(mask: seq<bool>, k: nat): (r: seq<nat>)
    requires k <= |mask|
    ensures forall i :: 0 <= i < |r| ==> r[i] < k
    decreases k
  {
    if k == 0 then []
    else Selected(mask, k - 1) + (if mask[k - 1] then [k - 1] else [])
  }

  /** Every selected row has a true mask entry. */
  lemma {:induction false} SelectedSound(mask: seq<bool>, k: nat)
    requires k <= |mask|
    ensures forall i :: 0 <= i < |Selected(mask, k)| ==> mask[Selected(mask, k)[i]]
    decreases k
  {
    if k > 0 {
      SelectedSound(mask, k - 1);
      var prev, r := Selected(mask, k - 1), Selected(mask, k);
      forall i | 0 <= i < |r|
        ensures mask[r[i]]
      {
        if i < |prev| {
          assert r[i] == prev[i];
        }
      }
    }
  }

  /** The selected rows are in strictly increasing row order. */
  lemma {:induction false} SelectedSorted(mask: seq<bool>, k: nat)
    requires k <= |mask|
    ensures forall i, j :: 0 <= i < j < |Selected(mask, k)| ==> Selected(mask, k)[i] < Selected(mask, k)[j]
    decreases k
  {
    if k > 0 {
      SelectedSorted(mask, k - 1);
    }
  }

  /** Every row among the first k with a true mask entry is selected. */
  lemma {:induction false} SelectedComplete(mask: seq<bool>, k: nat)
    requires k <= |mask|
    ensures forall p :: 0 <= p < k && mask[p] ==> p in Selected(mask, k)
    decreases k
  {
    if k > 0 {
      SelectedComplete(mask, k - 1);
      var prev := Selected(mask, k - 1);
      assert Selected(mask, k) == prev + (if mask[k - 1] then [k - 1] else []);
    }
  }

  /** The boolean mask of significant rows. */
  function SignificanceMask(t: Table, w: nat, kind: PointKind): (mask: seq<bool>)
    requires Aligned(t) && w >= 1
    ensures |mask| == |t.bars|
    ensures forall p :: 0 <= p < |t.bars| ==> mask[p] == IsSignificant(t, w, kind, p)
  {
    seq(|t.bars|, p requires 0 <= p < |t.bars| => IsSignificant(t, w, kind, p))
  }

  /** The significant rows among the first k rows, in row order. */
  function SignificantRows(t: Table, w: nat, kind: PointKind, k: nat): (r: seq<nat>)
    requires Aligned(t) && w >= 1 && k <= |t.bars|
    ensures forall i :: 0 <= i < |r| ==> r[i] < k
    decreases k
  {
    if k == 0 then []
    else SignificantRows(t, w, kind, k - 1) + (if IsSignificant(t, w, kind, k - 1) then [k - 1] else [])
  }

  /** The significant rows are the rows the significance mask selects. */
  lemma {:induction false} SignificantRowsSelected(t: Table, w: nat, kind: PointKind, k: nat)
    requires Aligned(t) && w >= 1 && k <= |t.bars|
    ensures SignificantRows(t, w, kind, k) == Selected(SignificanceMask(t, w, kind), k)
    decreases k
  {
    if k > 0 {
      SignificantRowsSelected(t, w, kind, k - 1);
      assert SignificanceMask(t, w, kind)[k - 1] == IsSignificant(t, w, kind, k - 1);
    }
  }

  /** Every row the filter keeps is significant. */
  lemma SignificantRowsSound(t: Table, w: nat, kind: PointKind, k: nat)
    requires Aligned(t) && w >= 1 && k <= |t.bars|
    ensures forall i :: 0 <= i < |SignificantRows(t, w, kind, k)| ==>
              IsSignificant(t, w, kind, SignificantRows(t, w, kind, k)[i])
  {
    SignificantRowsSelected(t, w, kind, k);
    SelectedSound(SignificanceMask(t, w, kind), k);
  }

  /** The kept rows are in strictly increasing row order. */
  lemma SignificantRowsSorted(t: Table, w: nat, kind: PointKind, k: nat)
    requires Aligned(t) && w >= 1 && k <= |t.bars|
    ensures forall i, j :: 0 <= i < j < |SignificantRows(t, w, kind, k)| ==>
              SignificantRows(t, w, kind, k)[i] < SignificantRows(t, w, kind, k)[j]
  {
    SignificantRowsSelected(t, w, kind, k);
    SelectedSorted(SignificanceMask(t, w, kind), k);
  }

  /** Every significant row among the first k is kept. */
  lemma SignificantRowsComplete(t: Table, w: nat, kind: PointKind, k: nat)
    requires Aligned(t) && w >= 1 && k <= |t.bars|
    ensures forall p :: 0 <= p < k && IsSignificant(t, w, kind, p) ==> p in SignificantRows(t, w, kind, k)
  {
    SignificantRowsSelected(t, w, kind, k);
    SelectedComplete(SignificanceMask(t, w, kind), k);
  }

  /** In a strictly increasing sequence nothing beyond the last element occurs. */
  lemma BeyondLastNotIn(r: seq<nat>, p: nat)
    requires |r| > 0 && forall i, j :: 0 <= i < j < |r| ==> r[i] < r[j]
    requires r[|r| - 1] < p
    ensures p !in r
  {
    forall i | 0 <= i < |r|
      ensures r[i] != p
    {
      if i < |r| - 1 {
        assert r[i] < r[|r| - 1];
      }
    }
  }

  /** A significant row's window is complete, so it is at least w/2 rows from the start
      and at least (w-1)/2 rows from the end of the table searched. */
  lemma SignificantRowInsideWindow(t: Table, w: nat, kind: PointKind, p: nat)
    requires Aligned(t) && w >= 1 && p < |t.bars| && IsSignificant(t, w, kind, p)
    ensures w / 2 <= p && p + (w - 1) / 2 < |t.bars|
  {
  }

  /** A significant low is no higher than any low in its centred window. */
  lemma SignificantLowIsWindowMinimum(t: Table, w: nat, p: nat)
    requires Aligned(t) && w >= 1 && p < |t.bars| && IsSignificant(t, w, LowPoint, p)
    ensures forall j :: CentredStart(p, w) <= j <= CentredEnd(p, w) ==> t.bars[p].low <= t.bars[j].low
  {
  }

  /** A significant high is no lower than any high in its centred window. */
  lemma SignificantHighIsWindowMaximum(t: Table, w: nat, p: nat)
    requires Aligned(t) && w >= 1 && p < |t.bars| && IsSignificant(t, w, HighPoint, p)
    ensures forall j :: CentredStart(p, w) <= j <= CentredEnd(p, w) ==> t.bars[j].high <= t.bars[p].high
  {
  }

  /** When the searched table is the last m rows of a table whose lagging span is the
      computed one, `dropna` removes the last 26 rows: every significant row of the tail
      is at least 26 rows before its end. */
  lemma LagGapExcluded(t: Table, m: nat, w: nat, kind: PointKind, p: nat)
    requires Aligned(t) && w >= 1 && Chikou in t.cols && t.cols[Chikou] == ChikouLine(t.bars)
    requires p < |TailTable(t, m).bars| && IsSignificant(TailTable(t, m), w, kind, p)
    ensures p + 26 < |TailTable(t, m).bars|
  {
    var r := TailTable(t, m);
    assert RowComplete(r, p);
    assert Chikou in r.cols;
    assert r.cols[Chikou][p].Some?;
    var g := |t.bars| - |r.bars| + p;
    assert r.cols[Chikou][p] == t.cols[Chikou][g];
    assert ChikouLine(t.bars)[g].Some?;
  }

  /** A row found in the last m rows of a table whose lagging span is the computed one
      lies at least w/2 rows after the start and more than 26 rows before the end of
      those rows. */
  lemma FoundRowPlacement(t: Table, m: nat, w: nat, kind: PointKind, i: nat)
    requires Aligned(t) && w >= 1 && Chikou in t.cols && t.cols[Chikou] == ChikouLine(t.bars)
    requires i < |SignificantRows(TailTable(t, m), w, kind, |TailTable(t, m).bars|)|
    ensures var r := TailTable(t, m);
            var p := SignificantRows(r, w, kind, |r.bars|)[i];
            w / 2 <= p && p + 26 < |r.bars|
  {
    var r := TailTable(t, m);
    SignificantRowsSound(r, w, kind, |r.bars|);
    var p := SignificantRows(r, w, kind, |r.bars|)[i];
    LagGapExcluded(t, m, w, kind, p);
    SignificantRowInsideWindow(r, w, kind, p);
  }
}
