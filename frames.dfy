/** A pandas DataFrame of daily bars: the OHLCV bars plus named derived columns whose
    cells may be undefined (NaN). `Table` is its value; `Frame` is the object that the
    indicator code changes in place by assigning columns and by `fillna(inplace=True)`. */
module Frames {
  import opened Series

  /** Column names used by the engine; `Extra` stands for any other column a caller added. */
  datatype Col =
    | Tenkan | Kijun | SpanA | SpanB | Chikou
    | Sma(period: nat) | Rsi | Macd | MacdSignal | MacdHist
    | Momentum | MomentumLag(lag: nat)
    | BbUpper | BbMiddle | BbLower | BbPosition
    | Extra(name: string)

  type Column = seq<Option<real>>
  type Columns = map<Col, Column>

  datatype Table = Table(bars: seq<Bar>, cols: Columns)

  /** Every derived column is as long as the bar series (alignment by position). */
  predicate Aligned(t: Table)
  {
    forall c :: c in t.cols ==> |t.cols[c]| == |t.bars|
  }

  /** Row i has no undefined cell: the rows `dropna()` keeps. */
  predicate RowComplete(t: Table, i: nat)
    requires Aligned(t) && i < |t.bars|
  {
    forall c :: c in t.cols ==> t.cols[c][i].Some?
  }

  /** pandas `df.tail(k)`: the last k rows of every column. */
  function TailTable(t: Table, k: nat): (r: Table)
    requires Aligned(t)
    ensures r.bars == Tail(t.bars, k) && r.cols.Keys == t.cols.Keys
    ensures forall c :: c in r.cols ==> r.cols[c] == Tail(t.cols[c], k)
    ensures Aligned(r)
  {
    Table(Tail(t.bars, k), map c | c in t.cols :: Tail(t.cols[c], k))
  }

  /** A column with every undefined cell replaced by v. */
  function FillColumn(col: Column, v: real): (r: Column)
    ensures |r| == |col|
    ensures forall i :: 0 <= i < |col| ==> r[i] == (if col[i].Some? then col[i] else Some(v))
  {
    seq(|col|, i requires 0 <= i < |col| => if col[i].Some? then col[i] else Some(v))
  }

  /** pandas `fillna(v)` over every column. */
  function FillNa(cols: Columns, v: real): (r: Columns)
    ensures r.Keys == cols.Keys
    ensures forall c :: c in cols ==> r[c] == FillColumn(cols[c], v)
  {
    map c | c in cols :: FillColumn(cols[c], v)
  }

  /** After `fillna`, no cell is undefined and defined cells are unchanged. */
  lemma FillNaDefinesAll(cols: Columns, v: real)
    ensures forall c, i :: c in cols && 0 <= i < |cols[c]| ==>
              FillNa(cols, v)[c][i].Some? &&
              (cols[c][i].Some? ==> FillNa(cols, v)[c][i] == cols[c][i])
  {
  }

  /** The DataFrame object: its bars never change, its derived columns are assigned and
      filled in place. */
  class Frame {
    var bars: seq<Bar>
    var cols: Columns

    ghost predicate Valid()
      reads this
    {
      Aligned(Table(bars, cols))
    }

    function Value(): Table
      reads this
    {
      Table(bars, cols)
    }

    constructor (bars0: seq<Bar>, cols0: Columns)
      requires Aligned(Table(bars0, cols0))
      ensures Valid() && bars == bars0 && cols == cols0
    {
      bars := bars0;
      cols := cols0;
    }

    /** `df[c] = values` */
    method SetColumn(c: Col, values: Column)
      requires Valid() && |values| == |bars|
      modifies this
      ensures Valid() && bars == old(bars) && cols == old(cols)[c := values]
    {
      cols := cols[c := values];
    }

    /** `df.fillna(v, inplace=True)` */
    method FillNaInPlace(v: real)
      requires Valid()
      modifies this
      ensures Valid() && bars == old(bars) && cols == FillNa(old(cols), v)
    {
      cols := FillNa(cols, v);
    }
  }
}
