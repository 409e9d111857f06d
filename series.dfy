/** Value types and numeric helpers shared by every component: an Option for
    pandas' missing values (NaN), a price bar, Python's two-argument min and max,
    and the extremes and sums of a price series. */
module Series {

  /** A value that may be missing; `None` stands for pandas' NaN. */
  datatype Option<+T> = None | Some(value: T)

  /** One price bar. The opening price and the volume are not read by any rule
      modelled here, so they are not carried. */
  datatype Bar = Bar(timestamp: int, high: real, low: real, close: real)

  /** A bar as an exchange reports it: the close lies between the low and the high. */
  predicate WellFormed(b: Bar) {
    b.low <= b.close <= b.high
  }

  predicate AllWellFormed(bars: seq<Bar>) {
    forall i :: 0 <= i < |bars| ==> WellFormed(bars[i])
  }

  function Abs(x: real): (r: real)
    ensures r >= 0.0 && (r == x || r == -x)
  {
    if x < 0.0 then -x else x
  }

  /** Python's `min(a, b)` on ordinary numbers: `a` unless `b` is smaller. */
  function Min(a: real, b: real): (r: real)
    ensures r <= a && r <= b && (r == a || r == b)
  {
    if b < a then b else a
  }

  function Max(a: real, b: real): (r: real)
    ensures r >= a && r >= b && (r == a || r == b)
  {
    if b > a then b else a
  }

  /** A part of a positive whole, divided by it, lies in [0, 1]. */
  lemma UnitRatio(a: real, m: real)
    requires 0.0 <= a <= m && m > 0.0
    ensures 0.0 <= a / m <= 1.0
  {
    assert a / m * m == a;
  }

  /** The largest element of a non-empty series (pandas `max()`). */
  function MaxOf(s: seq<real>): (m: real)
    requires |s| > 0
    ensures forall i :: 0 <= i < |s| ==> s[i] <= m
    ensures exists i :: 0 <= i < |s| && s[i] == m
  {
    if |s| == 1 then s[0]
    else
      var rest := MaxOf(s[1..]);
      assert forall i :: 1 <= i < |s| ==> s[i] == s[1..][i - 1];
      Max(s[0], rest)
  }

  /** The smallest element of a non-empty series (pandas `min()`). */
  function MinOf(s: seq<real>): (m: real)
    requires |s| > 0
    ensures forall i :: 0 <= i < |s| ==> m <= s[i]
    ensures exists i :: 0 <= i < |s| && s[i] == m
  {
    if |s| == 1 then s[0]
    else
      var rest := MinOf(s[1..]);
      assert forall i :: 1 <= i < |s| ==> s[i] == s[1..][i - 1];
      Min(s[0], rest)
  }

  /** The sum of a series, accumulated from the front. */
  function Sum(s: seq<real>): real
  {
    if |s| == 0 then 0.0 else Sum(s[..|s| - 1]) + s[|s| - 1]
  }

  function Closes(bars: seq<Bar>): (c: seq<real>)
    ensures |c| == |bars| && forall i :: 0 <= i < |bars| ==> c[i] == bars[i].close
  {
    seq(|bars|, i requires 0 <= i < |bars| => bars[i].close)
  }

  function Highs(bars: seq<Bar>): (h: seq<real>)
    ensures |h| == |bars| && forall i :: 0 <= i < |bars| ==> h[i] == bars[i].high
  {
    seq(|bars|, i requires 0 <= i < |bars| => bars[i].high)
  }

  function Lows(bars: seq<Bar>): (l: seq<real>)
    ensures |l| == |bars| && forall i :: 0 <= i < |bars| ==> l[i] == bars[i].low
  {
    seq(|bars|, i requires 0 <= i < |bars| => bars[i].low)
  }

  /** `iloc[-1]`. */
  function Last(s: seq<real>): real
    requires |s| > 0
  {
    s[|s| - 1]
  }

  /** `iloc[-2] if len > 1 else iloc[-1]`: the previous value, or the latest one
      again when the series has a single element. */
  function Prev(s: seq<real>): real
    requires |s| > 0
  {
    if |s| > 1 then s[|s| - 2] else s[|s| - 1]
  }
}
