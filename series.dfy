/** Price bars, value columns and the small sequence toolkit every variant of the
    inflection engine shares: maxima, minima, sums and means of windows, pandas
    `tail`, Python's `s[-k:]`, and comparisons in which an undefined value (pandas
    NaN) makes the comparison false. */
module Series {

  datatype Option<T> = None | Some(value: T)

  /** One daily OHLCV bar; `date` is a day number (days since some fixed origin). */
  datatype Bar = Bar(date: int, open: real, high: real, low: real, close: real, volume: nat)

  /** The bar data model: every price is strictly positive. */
  predicate PositivePrices(s: seq<Bar>)
  {
    forall i :: 0 <= i < |s| ==> s[i].open > 0.0 && s[i].high > 0.0 && s[i].low > 0.0 && s[i].close > 0.0
  }

  /** Dates strictly increase along the series. */
  predicate IncreasingDates(s: seq<Bar>)
  {
    forall i, j :: 0 <= i < j < |s| ==> s[i].date < s[j].date
  }

  /** Every element is strictly positive. */
  predicate AllPositive(xs: seq<real>)
  {
    forall i :: 0 <= i < |xs| ==> xs[i] > 0.0
  }

  /** Positive bars have positive closes. */
  lemma PositiveCloses(bars: seq<Bar>)
    requires PositivePrices(bars)
    ensures AllPositive(Closes(bars))
  {
  }

  function Highs(s: seq<Bar>): (r: seq<real>)
    ensures |r| == |s| && forall i :: 0 <= i < |s| ==> r[i] == s[i].high
  {
    seq(|s|, i requires 0 <= i < |s| => s[i].high)
  }

  function Lows(s: seq<Bar>): (r: seq<real>)
    ensures |r| == |s| && forall i :: 0 <= i < |s| ==> r[i] == s[i].low
  {
    seq(|s|, i requires 0 <= i < |s| => s[i].low)
  }

  function Closes(s: seq<Bar>): (r: seq<real>)
    ensures |r| == |s| && forall i :: 0 <= i < |s| ==> r[i] == s[i].close
  {
    seq(|s|, i requires 0 <= i < |s| => s[i].close)
  }

  function Volumes(s: seq<Bar>): (r: seq<real>)
    ensures |r| == |s| && forall i :: 0 <= i < |s| ==> r[i] == s[i].volume as real
  {
    seq(|s|, i requires 0 <= i < |s| => s[i].volume as real)
  }

  /** Largest element of a non-empty sequence. */
  function Max(xs: seq<real>): (m: real)
    requires |xs| > 0
    ensures forall i :: 0 <= i < |xs| ==> xs[i] <= m
    ensures exists i :: 0 <= i < |xs| && xs[i] == m
  {
    if |xs| == 1 then xs[0]
    else
      var r := Max(xs[1..]);
      assert forall i :: 1 <= i < |xs| ==> xs[i] == xs[1..][i - 1];
      if xs[0] >= r then xs[0] else r
  }

  /** Smallest element of a non-empty sequence. */
  function Min(xs: seq<real>): (m: real)
    requires |xs| > 0
    ensures forall i :: 0 <= i < |xs| ==> m <= xs[i]
    ensures exists i :: 0 <= i < |xs| && xs[i] == m
  {
    if |xs| == 1 then xs[0]
    else
      var r := Min(xs[1..]);
      assert forall i :: 1 <= i < |xs| ==> xs[i] == xs[1..][i - 1];
      if xs[0] <= r then xs[0] else r
  }

  function Sum(xs: seq<real>): real
  {
    if |xs| == 0 then 0.0 else Sum(xs[..|xs| - 1]) + xs[|xs| - 1]
  }

  /** Arithmetic mean of a non-empty sequence. */
  function Mean(xs: seq<real>): real
    requires |xs| > 0
  {
    Sum(xs) / (|xs| as real)
  }

  /** Every element is at least lo, so the sum is at least n*lo. */
  lemma {:induction false} SumAtLeast(xs: seq<real>, lo: real)
    requires forall i :: 0 <= i < |xs| ==> lo <= xs[i]
    ensures (|xs| as real) * lo <= Sum(xs)
    decreases |xs|
  {
    if |xs| > 0 {
      SumAtLeast(xs[..|xs| - 1], lo);
    }
  }

  /** Every element is at most hi, so the sum is at most n*hi. */
  lemma {:induction false} SumAtMost(xs: seq<real>, hi: real)
    requires forall i :: 0 <= i < |xs| ==> xs[i] <= hi
    ensures Sum(xs) <= (|xs| as real) * hi
    decreases |xs|
  {
    if |xs| > 0 {
      SumAtMost(xs[..|xs| - 1], hi);
    }
  }

  /** The mean of values in [lo, hi] lies in [lo, hi]. */
  lemma MeanBounds(xs: seq<real>, lo: real, hi: real)
    requires |xs| > 0
    requires forall i :: 0 <= i < |xs| ==> lo <= xs[i] <= hi
    ensures lo <= Mean(xs) <= hi
  {
    SumAtLeast(xs, lo);
    SumAtMost(xs, hi);
    DivBounds(Sum(xs), |xs| as real, lo, hi);
  }

  /** The mean of values that are all at least lo is at least lo. */
  lemma MeanAtLeast(xs: seq<real>, lo: real)
    requires |xs| > 0
    requires forall i :: 0 <= i < |xs| ==> lo <= xs[i]
    ensures lo <= Mean(xs)
  {
    SumAtLeast(xs, lo);
    var n := |xs| as real;
    var q := Sum(xs) / n;
    assert Sum(xs) == n * q;
    assert n * (q - lo) >= 0.0;
  }

  /** n*lo <= x <= n*hi with n > 0 gives lo <= x/n <= hi. */
  lemma DivBounds(x: real, n: real, lo: real, hi: real)
    requires n > 0.0
    requires n * lo <= x <= n * hi
    ensures lo <= x / n <= hi
  {
    var q := x / n;
    assert x == n * q;
    assert n * (q - lo) >= 0.0 && n * (hi - q) >= 0.0;
  }

  /** The same for an integer total over a positive integer count. */
  lemma IntDivBounds(total: int, c: int, lo: int, hi: int)
    requires c > 0 && c * lo <= total <= c * hi
    ensures lo as real <= (total as real) / (c as real) <= hi as real
  {
    assert (c * lo) as real == (c as real) * (lo as real);
    assert (c * hi) as real == (c as real) * (hi as real);
    DivBounds(total as real, c as real, lo as real, hi as real);
  }

  /** Multiplying by a non-negative factor preserves order. */
  lemma ScaleMono(a: real, x: real, y: real)
    requires a >= 0.0 && x <= y
    ensures a * x <= a * y
  {
    assert a * y - a * x == a * (y - x);
  }

  /** The convex combination alpha*x + (1 - alpha)*e. */
  function Blend(alpha: real, x: real, e: real): real
  {
    alpha * x + (1.0 - alpha) * e
  }

  /** A convex combination of two values in [lo, hi] lies in [lo, hi]. */
  lemma ConvexBetween(alpha: real, x: real, e: real, lo: real, hi: real)
    requires 0.0 <= alpha <= 1.0 && lo <= x <= hi && lo <= e <= hi
    ensures lo <= Blend(alpha, x, e) <= hi
  {
    MulNonNegative(alpha, x - lo);
    MulNonNegative(1.0 - alpha, e - lo);
    MulNonNegative(alpha, hi - x);
    MulNonNegative(1.0 - alpha, hi - e);
    assert Blend(alpha, x, e) - lo == alpha * (x - lo) + (1.0 - alpha) * (e - lo);
    assert hi - Blend(alpha, x, e) == alpha * (hi - x) + (1.0 - alpha) * (hi - e);
  }

  lemma MulNonNegative(a: real, b: real)
    requires a >= 0.0 && b >= 0.0
    ensures a * b >= 0.0
  {
  }

  lemma SquareNonNegative(x: real)
    ensures x * x >= 0.0
  {
    if x < 0.0 {
      assert x * x == (-x) * (-x);
    }
  }

  /** With a positive base b, a / b exceeds, equals or stays below 1 as a exceeds, equals
      or stays below b. */
  lemma RatioVersusOne(a: real, b: real)
    requires b > 0.0
    ensures a / b > 1.0 <==> a > b
    ensures a / b == 1.0 <==> a == b
  {
    var q := a / b;
    assert a == q * b;
    assert a - b == (q - 1.0) * b;
  }

  /** pandas `tail(k)` (and Python `s[-k:]` for k > 0): the last k elements, or all of them. */
  function Tail<T>(s: seq<T>, k: nat): (r: seq<T>)
    ensures |r| == (if k < |s| then k else |s|)
    ensures forall i :: 0 <= i < |r| ==> r[i] == s[|s| - |r| + i]
  {
    if k >= |s| then s else s[|s| - k..]
  }

  /** The maximum of the last n elements is at least the last element. */
  lemma TailMaxCoversLast(xs: seq<real>, n: nat)
    requires 0 < n <= |xs|
    ensures xs[|xs| - 1] <= Max(Tail(xs, n))
  {
    assert Tail(xs, n)[n - 1] == xs[|xs| - 1];
  }

  /** The last element equals the maximum of the last n exactly when no element among
      the last n exceeds it. */
  lemma TailMaxIsLast(xs: seq<real>, n: nat)
    requires 0 < n <= |xs|
    ensures xs[|xs| - 1] == Max(Tail(xs, n)) <==> forall j :: |xs| - n <= j < |xs| ==> xs[j] <= xs[|xs| - 1]
  {
    var tail := Tail(xs, n);
    assert tail[n - 1] == xs[|xs| - 1];
    if forall j :: |xs| - n <= j < |xs| ==> xs[j] <= xs[|xs| - 1] {
      var k :| 0 <= k < n && tail[k] == Max(tail);
      assert tail[k] == xs[|xs| - n + k];
    }
  }

  /** Python `s[-k:]` for any integer k: always a suffix of `s`, of length min(k, |s|) for
      a positive k, the whole sequence for `s[-0:]`, and max(|s| + k, 0) elements for a
      negative k, which drops the first -k elements. */
  function PyTail<T>(s: seq<T>, k: int): (r: seq<T>)
    ensures |r| <= |s| && r == s[|s| - |r|..]
    ensures k > 0 ==> |r| == (if k < |s| then k else |s|)
    ensures k == 0 ==> |r| == |s|
    ensures k < 0 ==> |r| == (if |s| + k > 0 then |s| + k else 0)
  {
    if k > 0 then Tail(s, k)
    else if k == 0 then s
    else s[if -k < |s| then -k else |s|..]
  }

  /** pandas `a > b` on possibly undefined values: false when either side is NaN. */
  predicate Gt(a: Option<real>, b: Option<real>)
  {
    a.Some? && b.Some? && a.value > b.value
  }

  /** pandas `a <= b`: false when either side is NaN. */
  predicate Le(a: Option<real>, b: Option<real>)
  {
    a.Some? && b.Some? && a.value <= b.value
  }

  /** pandas `a == b`: false when either side is NaN. */
  predicate Eq(a: Option<real>, b: Option<real>)
  {
    a.Some? && b.Some? && a.value == b.value
  }

  /** (a + b) / 2, undefined when either side is. */
  function Mid(a: Option<real>, b: Option<real>): (r: Option<real>)
    ensures r.Some? <==> a.Some? && b.Some?
  {
    if a.Some? && b.Some? then Some((a.value + b.value) / 2.0) else None
  }

  /** abs(a - b), undefined when either side is. */
  function AbsDiff(a: Option<real>, b: Option<real>): (r: Option<real>)
    ensures r.Some? <==> a.Some? && b.Some?
    ensures r.Some? ==> r.value >= 0.0
  {
    if a.Some? && b.Some? then Some(if a.value >= b.value then a.value - b.value else b.value - a.value)
    else None
  }

  /** Python's built-in `max(a, b)` on floats that may be NaN: it keeps `a` unless `b > a`,
      so a NaN first argument wins and a NaN second argument is ignored. */
  function PyMax(a: Option<real>, b: Option<real>): (r: Option<real>)
    ensures a.None? ==> r.None?
    ensures a.Some? && b.None? ==> r == a
    ensures a.Some? && b.Some? ==> r == Some(if b.value > a.value then b.value else a.value)
  {
    if Gt(b, a) then b else a
  }

  /** Percentage change `(new / old - 1) * 100`. */
  function PctChange(newValue: real, oldValue: real): real
    requires oldValue != 0.0
  {
    (newValue / oldValue - 1.0) * 100.0
  }

  /** With a positive base, a percentage change above p means the new value exceeds the
      old one scaled by (1 + p/100). */
  lemma PctChangeAbove(newValue: real, oldValue: real, p: real)
    requires oldValue > 0.0
    ensures PctChange(newValue, oldValue) > p <==> newValue > oldValue * (1.0 + p / 100.0)
  {
    var q := newValue / oldValue;
    assert newValue == q * oldValue;
    assert PctChange(newValue, oldValue) == (q - 1.0) * 100.0;
    if q > 1.0 + p / 100.0 {
      assert q * oldValue > (1.0 + p / 100.0) * oldValue;
    } else {
      assert q * oldValue <= (1.0 + p / 100.0) * oldValue;
    }
  }

  /** With a positive base, a percentage change below p means the new value is below
      the old one scaled by (1 + p/100). */
  lemma PctChangeBelow(newValue: real, oldValue: real, p: real)
    requires oldValue > 0.0
    ensures PctChange(newValue, oldValue) < p <==> newValue < oldValue * (1.0 + p / 100.0)
  {
    var q := newValue / oldValue;
    assert newValue == q * oldValue;
    assert PctChange(newValue, oldValue) == (q - 1.0) * 100.0;
    if q < 1.0 + p / 100.0 {
      assert q * oldValue < (1.0 + p / 100.0) * oldValue;
    } else {
      assert q * oldValue >= (1.0 + p / 100.0) * oldValue;
    }
  }

  /** Integer bonus: `points` when the condition holds, else 0. */
  function Bonus(condition: bool, points: int): int
  {
    if condition then points else 0
  }

  function MinInt(a: int, b: int): int
  {
    if a <= b then a else b
  }

  function MaxInt(a: int, b: int): int
  {
    if a >= b then a else b
  }
}
