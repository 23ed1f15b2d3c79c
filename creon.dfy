/** The pure helpers of the CREON fetcher in fetch_data_creon_simple.py: the stock-code
    rule (an `A` in front of a bare code), the conversion of a CREON date number
    (YYYYMMDD) to the text YYYY-MM-DD, and the assembly of the fetched rows, sorted by
    that text. The COM connection and the chart request are replaced by their results:
    the connection flag and the raw rows the request returned. */
module Creon {

  // ---------------------------------------------------------------------------------
  // Stock codes
  // ---------------------------------------------------------------------------------

  /** `symbol.startswith('A')`. */
  predicate StartsWithA(symbol: string)
  {
    |symbol| > 0 && symbol[0] == 'A'
  }

  /** The chart request's code: the symbol itself when it already starts with `A`,
      otherwise the symbol with an `A` in front. */
  function StockCode(symbol: string): (code: string)
    ensures StartsWithA(code)
    ensures StartsWithA(symbol) ==> code == symbol
    ensures !StartsWithA(symbol) ==> |code| == |symbol| + 1 && code[1..] == symbol
  {
    if StartsWithA(symbol) then symbol else "A" + symbol
  }

  /** Applying the rule twice gives the code of applying it once. */
  lemma StockCodeIdempotent(symbol: string)
    ensures StockCode(StockCode(symbol)) == StockCode(symbol)
  {
  }

  // ---------------------------------------------------------------------------------
  // Python str() of an integer
  // ---------------------------------------------------------------------------------

  function DigitChar(d: int): (c: char)
    requires 0 <= d < 10
    ensures '0' <= c <= '9'
  {
    ('0' as int + d) as char
  }

  /** The decimal digits of a natural number, without leading zeros. */
  function NatToString(n: nat): (s: string)
    ensures |s| > 0
    ensures forall i :: 0 <= i < |s| ==> '0' <= s[i] <= '9'
    decreases n
  {
    if n < 10 then [DigitChar(n)] else NatToString(n / 10) + [DigitChar(n % 10)]
  }

  /** `str(n)` of a Python integer. */
  function IntToString(n: int): string
  {
    if n < 0 then "-" + NatToString(-n) else NatToString(n)
  }

  function Pow10(k: nat): (p: nat)
    ensures p > 0
  {
    if k == 0 then 1 else 10 * Pow10(k - 1)
  }

  /** A number with k digits is written with k characters. */
  lemma {:induction false} NatToStringLength(n: nat, k: nat)
    requires k > 0 && Pow10(k - 1) <= n < Pow10(k)
    ensures |NatToString(n)| == k
    decreases k
  {
    if k > 1 {
      assert Pow10(k - 1) == 10 * Pow10(k - 2);
      assert Pow10(k) == 10 * Pow10(k - 1);
      NatToStringLength(n / 10, k - 1);
    }
  }

  // ---------------------------------------------------------------------------------
  // Dates
  // ---------------------------------------------------------------------------------

  /** Python's `s[a:b]` for 0 <= a <= b: the bounds are clamped to the length. */
  function Slice(s: string, a: nat, b: nat): (r: string)
    requires a <= b
    ensures |r| == (if b <= |s| then b - a else if a <= |s| then |s| - a else 0)
  {
    var lo := if a <= |s| then a else |s|;
    var hi := if b <= |s| then b else |s|;
    s[lo..hi]
  }

  /** `_convert_date` on the text of the date: year, month and day fields joined by dashes,
      each field cut by Python's clamping slices. */
  function ConvertDateText(s: string): string
  {
    Slice(s, 0, 4) + "-" + Slice(s, 4, 6) + "-" + Slice(s, 6, 8)
  }

  /** `_convert_date(date_int)`. */
  function ConvertDate(dateValue: int): string
  {
    ConvertDateText(IntToString(dateValue))
  }

  /** The characters other than `-`, in order. */
  function RemoveDashes(s: string): (r: string)
    ensures |r| <= |s|
  {
    if |s| == 0 then []
    else RemoveDashes(s[..|s| - 1]) + (if s[|s| - 1] == '-' then [] else [s[|s| - 1]])
  }

  lemma {:induction false} RemoveDashesAppend(a: string, b: string)
    ensures RemoveDashes(a + b) == RemoveDashes(a) + RemoveDashes(b)
    decreases |b|
  {
    if |b| > 0 {
      assert (a + b)[..|a + b| - 1] == a + b[..|b| - 1];
      RemoveDashesAppend(a, b[..|b| - 1]);
      assert RemoveDashes(b) == RemoveDashes(b[..|b| - 1]) + (if b[|b| - 1] == '-' then [] else [b[|b| - 1]]);
    } else {
      assert a + b == a;
    }
  }

  /** The text holds no dash. */
  predicate NoDash(s: string)
  {
    forall i :: 0 <= i < |s| ==> s[i] != '-'
  }

  lemma {:induction false} RemoveDashesNone(s: string)
    requires NoDash(s)
    ensures RemoveDashes(s) == s
    decreases |s|
  {
    if |s| > 0 {
      RemoveDashesNone(s[..|s| - 1]);
    }
  }

  lemma SliceNoDash(s: string, a: nat, b: nat)
    requires NoDash(s) && a <= b
    ensures NoDash(Slice(s, a, b))
    ensures RemoveDashes(Slice(s, a, b)) == Slice(s, a, b)
  {
    var t := Slice(s, a, b);
    var lo := if a <= |s| then a else |s|;
    forall i | 0 <= i < |t| ensures t[i] != '-' {
      assert t[i] == s[lo + i];
    }
    RemoveDashesNone(t);
  }

  /** For any text without dashes the conversion keeps its first eight characters, in
      order, and adds exactly two dashes. */
  lemma ConvertDateTextKeepsPrefix(s: string)
    requires NoDash(s)
    ensures |ConvertDateText(s)| == (if |s| < 8 then |s| else 8) + 2
    ensures RemoveDashes(ConvertDateText(s)) == s[..if |s| < 8 then |s| else 8]
  {
    var y, m, d := Slice(s, 0, 4), Slice(s, 4, 6), Slice(s, 6, 8);
    var n := if |s| < 8 then |s| else 8;
    assert y + m + d == s[..n];
    SliceNoDash(s, 0, 4);
    SliceNoDash(s, 4, 6);
    SliceNoDash(s, 6, 8);
    assert RemoveDashes("-") == [];
    RemoveDashesAppend(y, "-");
    RemoveDashesAppend(y + "-", m);
    RemoveDashesAppend(y + "-" + m, "-");
    RemoveDashesAppend(y + "-" + m + "-", d);
  }

  /** An eight-digit date number YYYYMMDD becomes YYYY-MM-DD: ten characters, dashes at
      positions 4 and 7, the digits in their places, and removing the dashes gives back
      `str(date_int)`. */
  lemma ConvertEightDigitDate(dateValue: int)
    requires 10000000 <= dateValue < 100000000
    ensures |ConvertDate(dateValue)| == 10
    ensures ConvertDate(dateValue)[4] == '-' && ConvertDate(dateValue)[7] == '-'
    ensures ConvertDate(dateValue) == IntToString(dateValue)[..4] + "-" + IntToString(dateValue)[4..6] + "-"
                                      + IntToString(dateValue)[6..]
    ensures RemoveDashes(ConvertDate(dateValue)) == IntToString(dateValue)
  {
    var s := IntToString(dateValue);
    assert Pow10(7) == 10000000 && Pow10(8) == 100000000;
    assert NoDash(s);
    NatToStringLength(dateValue, 8);
    ConvertDateTextKeepsPrefix(s);
    assert s[..8] == s;
  }

  // ---------------------------------------------------------------------------------
  // Fetched rows
  // ---------------------------------------------------------------------------------

  /** One raw row of the chart request: date number, open, high, low, close, volume. */
  datatype RawRow = RawRow(date: int, open: int, high: int, low: int, close: int, volume: int)

  /** One fetched row, with its date as text. */
  datatype Row = Row(date: string, open: int, high: int, low: int, close: int, volume: int)

  function ToRow(raw: RawRow): Row
  {
    Row(ConvertDate(raw.date), raw.open, raw.high, raw.low, raw.close, raw.volume)
  }

  /** The rows of the raw values, in request order. */
  function RowsOf(raws: seq<RawRow>): (rows: seq<Row>)
    ensures |rows| == |raws|
    ensures forall i :: 0 <= i < |raws| ==> rows[i] == ToRow(raws[i])
  {
    seq(|raws|, i requires 0 <= i < |raws| => ToRow(raws[i]))
  }

  /** Python's comparison of two strings: lexicographic by character code. */
  predicate TextLe(a: string, b: string)
    decreases |a|
  {
    |a| == 0 || (|b| > 0 && (a[0] < b[0] || (a[0] == b[0] && TextLe(a[1..], b[1..]))))
  }

  /** Any two texts are comparable. */
  lemma {:induction false} TextLeTotal(a: string, b: string)
    ensures TextLe(a, b) || TextLe(b, a)
    decreases |a|
  {
    if |a| > 0 && |b| > 0 && a[0] == b[0] {
      TextLeTotal(a[1..], b[1..]);
    }
  }

  /** Dates never decrease along the list. */
  predicate SortedByDate(rows: seq<Row>)
  {
    forall i :: 0 < i < |rows| ==> TextLe(rows[i - 1].date, rows[i].date)
  }

  /** Insert a row before the first row whose date is not below its own. */
  function Insert(x: Row, rows: seq<Row>): (r: seq<Row>)
    ensures |r| == |rows| + 1
    ensures multiset(r) == multiset(rows) + multiset{x}
  {
    if |rows| == 0 then [x]
    else if TextLe(x.date, rows[0].date) then [x] + rows
    else
      assert rows == [rows[0]] + rows[1..];
      [rows[0]] + Insert(x, rows[1..])
  }

  /** A row in front of a sorted list whose first date is not below its own. */
  lemma ConsSorted(h: Row, rows: seq<Row>)
    requires SortedByDate(rows)
    requires |rows| > 0 ==> TextLe(h.date, rows[0].date)
    ensures SortedByDate([h] + rows)
  {
    var r := [h] + rows;
    forall i | 1 < i < |r| ensures TextLe(r[i - 1].date, r[i].date) {
      assert r[i - 1] == rows[i - 2] && r[i] == rows[i - 1];
    }
  }

  /** Dropping the first row keeps a list sorted. */
  lemma RestSorted(rows: seq<Row>)
    requires |rows| > 0 && SortedByDate(rows)
    ensures SortedByDate(rows[1..])
  {
    var tail := rows[1..];
    forall i | 0 < i < |tail| ensures TextLe(tail[i - 1].date, tail[i].date) {
      assert tail[i - 1] == rows[i] && tail[i] == rows[i + 1];
    }
  }

  /** Inserting into a list sorted by date keeps it sorted; the first row of the result is
      the inserted row or the old first row. */
  lemma {:induction false} InsertSorted(x: Row, rows: seq<Row>)
    requires SortedByDate(rows)
    ensures SortedByDate(Insert(x, rows))
    ensures Insert(x, rows)[0] == x || (|rows| > 0 && Insert(x, rows)[0] == rows[0])
    decreases |rows|
  {
    if |rows| == 0 {
    } else if TextLe(x.date, rows[0].date) {
      ConsSorted(x, rows);
    } else {
      var tail := rows[1..];
      RestSorted(rows);
      InsertSorted(x, tail);
      TextLeTotal(x.date, rows[0].date);
      var inner := Insert(x, tail);
      if |tail| > 0 && inner[0] == tail[0] {
        assert tail[0] == rows[1];
      }
      ConsSorted(rows[0], inner);
    }
  }

  /** `list.sort(key=date)`: each row inserted, from the back, before the first later row
      whose date is not below its own. */
  function SortByDate(rows: seq<Row>): (r: seq<Row>)
    ensures |r| == |rows|
    ensures multiset(r) == multiset(rows)
  {
    if |rows| == 0 then []
    else
      assert rows == [rows[0]] + rows[1..];
      Insert(rows[0], SortByDate(rows[1..]))
  }

  /** After the sort the dates never decrease. */
  lemma {:induction false} SortByDateSorted(rows: seq<Row>)
    ensures SortedByDate(SortByDate(rows))
  {
    if |rows| > 0 {
      SortByDateSorted(rows[1..]);
      InsertSorted(rows[0], SortByDate(rows[1..]));
    }
  }

  /** The result of `get_stock_data`: nothing without a connection, otherwise the code asked
      for and the rows sorted by date. */
  datatype Fetched = NotConnected | Fetched(code: string, rows: seq<Row>)

  /** `get_stock_data` on the connection flag and the rows the chart request returned: the
      rows are converted one by one, in request order, then sorted by date. */
  method GetStockData(connected: bool, symbol: string, raws: seq<RawRow>) returns (r: Fetched)
    ensures !connected <==> r.NotConnected?
    ensures r.Fetched? ==> r.code == StockCode(symbol) && r.rows == SortByDate(RowsOf(raws))
  {
    if !connected {
      return NotConnected;
    }
    var code := StockCode(symbol);
    var dataList: seq<Row> := [];
    for i := 0 to |raws|
      invariant dataList == RowsOf(raws[..i])
    {
      dataList := dataList + [ToRow(raws[i])];
    }
    assert raws[..|raws|] == raws;
    r := Fetched(code, SortByDate(dataList));
  }

  /** The fetched rows are sorted by date, are a permutation of the converted request rows,
      and every one of them has the date text of a request row. */
  lemma FetchedRows(raws: seq<RawRow>)
    ensures SortedByDate(SortByDate(RowsOf(raws)))
    ensures multiset(SortByDate(RowsOf(raws))) == multiset(RowsOf(raws))
    ensures forall row :: row in SortByDate(RowsOf(raws)) ==> exists i :: 0 <= i < |raws| && row == ToRow(raws[i])
  {
    SortByDateSorted(RowsOf(raws));
    var sorted := SortByDate(RowsOf(raws));
    forall row | row in sorted ensures exists i :: 0 <= i < |raws| && row == ToRow(raws[i]) {
      assert row in multiset(sorted);
      assert row in RowsOf(raws);
    }
  }
}
