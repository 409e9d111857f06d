/** The indicator frame and the MA-crossover tagging that fills the `signal`
    column the backtester replays: a buy where MA20 crosses above MA60 with a
    positive MACD histogram and RSI above 50, a sell where MA20 crosses below
    MA60 with a negative histogram and RSI below 60. A missing (NaN) operand
    makes every comparison false. */
module Indicators {
  import opened Series
  import opened Smoothing

  /** Summing a flat series of `n` values gives `n` times the value. */
  lemma {:induction false} SumConstant(xs: seq<real>, c: real)
    requires forall i :: 0 <= i < |xs| ==> xs[i] == c
    ensures Sum(xs) == |xs| as real * c
    decreases |xs|
  {
    if |xs| > 0 {
      SumConstant(xs[..|xs| - 1], c);
    }
  }

  /** `rolling(window=n).mean()`: NaN for the first n - 1 bars, then the mean of
      the trailing n values. */
  function Sma(xs: seq<real>, n: int): (s: seq<Option<real>>)
    requires n >= 1
    ensures |s| == |xs|
    ensures forall i :: 0 <= i < |xs| ==> (s[i].None? <==> i < n - 1)
    ensures forall i :: n - 1 <= i < |xs| ==> s[i] == Some(Sum(xs[i - n + 1 .. i + 1]) / n as real)
  {
    seq(|xs|, i requires 0 <= i < |xs| =>
      if i < n - 1 then None else Some(Sum(xs[i - n + 1 .. i + 1]) / n as real))
  }

  /** On a flat stretch of at least n bars the moving average is the flat value. */
  lemma SmaFlat(xs: seq<real>, n: int, i: int, c: real)
    requires n >= 1 && n - 1 <= i < |xs|
    requires forall j :: i - n + 1 <= j <= i ==> xs[j] == c
    ensures Sma(xs, n)[i] == Some(c)
  {
    var w := xs[i - n + 1 .. i + 1];
    assert forall j :: 0 <= j < |w| ==> w[j] == xs[i - n + 1 + j];
    SumConstant(w, c);
    assert |w| == n;
    var m := n as real;
    assert Sum(w) == m * c;
    DivideBack(m, c);
    assert Sum(w) / m == c;
    assert Sma(xs, n)[i] == Some(Sum(w) / m);
  }

  /** Division step for `SmaFlat`: multiplying by `m` and dividing by it
      again gives the value back. */
  lemma DivideBack(m: real, c: real)
    requires m != 0.0
    ensures m * c / m == c
  {
  }

  /** One row of the frame `calculate_indicators` produces. The Bollinger bands
      are left out: no signal reads them. RSI is taken as given. */
  datatype Row = Row(
    timestamp: int,
    high: real,
    low: real,
    close: real,
    ma20: Option<real>,
    ma60: Option<real>,
    macdHist: real,
    rsi: Option<real>)

  /** `calculate_indicators` with `rsi` as an input series. */
  function CalculateIndicators(bars: seq<Bar>, rsi: seq<Option<real>>): (df: seq<Row>)
    requires |rsi| == |bars|
    ensures |df| == |bars|
    ensures forall i :: 0 <= i < |bars| ==>
      && df[i].timestamp == bars[i].timestamp && df[i].close == bars[i].close
      && df[i].high == bars[i].high && df[i].low == bars[i].low
      && (df[i].ma20.None? <==> i < 19)
      && (df[i].ma60.None? <==> i < 59)
      && df[i].ma20 == Sma(Closes(bars), 20)[i]
      && df[i].ma60 == Sma(Closes(bars), 60)[i]
      && df[i].macdHist == Macd(Closes(bars), 12, 26, 9).histogram[i]
      && df[i].rsi == rsi[i]
  {
    var closes := Closes(bars);
    var ma20, ma60 := Sma(closes, 20), Sma(closes, 60);
    var hist := Macd(closes, 12, 26, 9).histogram;
    seq(|bars|, i requires 0 <= i < |bars| =>
      Row(bars[i].timestamp, bars[i].high, bars[i].low, bars[i].close, ma20[i], ma60[i], hist[i], rsi[i]))
  }

  /** Comparisons in which NaN on either side is false. */
  predicate Above(a: Option<real>, b: Option<real>) {
    a.Some? && b.Some? && a.value > b.value
  }

  predicate Below(a: Option<real>, b: Option<real>) {
    a.Some? && b.Some? && a.value < b.value
  }

  predicate AtMost(a: Option<real>, b: Option<real>) {
    a.Some? && b.Some? && a.value <= b.value
  }

  predicate AtLeast(a: Option<real>, b: Option<real>) {
    a.Some? && b.Some? && a.value >= b.value
  }

  /** MA20 above MA60 now and not above at the previous bar; `shift(1)` has no
      previous bar at the first row. */
  predicate CrossUp(df: seq<Row>, i: int)
    requires 0 <= i < |df|
    ensures CrossUp(df, i) ==> i > 0 && !CrossDown(df, i)
  {
    Above(df[i].ma20, df[i].ma60) && i > 0 && AtMost(df[i - 1].ma20, df[i - 1].ma60)
  }

  predicate CrossDown(df: seq<Row>, i: int)
    requires 0 <= i < |df|
  {
    Below(df[i].ma20, df[i].ma60) && i > 0 && AtLeast(df[i - 1].ma20, df[i - 1].ma60)
  }

  predicate BuyCondition(df: seq<Row>, i: int)
    requires 0 <= i < |df|
    ensures BuyCondition(df, i) ==> !SellCondition(df, i)
  {
    CrossUp(df, i) && df[i].macdHist > 0.0 && Above(df[i].rsi, Some(50.0))
  }

  predicate SellCondition(df: seq<Row>, i: int)
    requires 0 <= i < |df|
  {
    CrossDown(df, i) && df[i].macdHist < 0.0 && Below(df[i].rsi, Some(60.0))
  }

  /** A row of the frame `detect_signals` returns: the indicator row with its
      `signal` and `signal_type` columns. */
  datatype SignalRow = SignalRow(bar: Row, signal: int, signalType: string)

  const BuyLabel: string := "买入"
  const SellLabel: string := "卖出"

  /** The tagged row at index `i`. The sell assignment comes last in the
      source, so a sell wins; but no row meets both conditions. */
  function MarkAt(df: seq<Row>, i: int): (r: SignalRow)
    requires 0 <= i < |df|
    ensures r.bar == df[i]
    ensures r.signal == 1 <==> BuyCondition(df, i)
    ensures r.signal == -1 <==> SellCondition(df, i)
    ensures r.signal == 0 <==> !BuyCondition(df, i) && !SellCondition(df, i)
    ensures r.signalType == (if r.signal == 1 then BuyLabel else if r.signal == -1 then SellLabel else "")
  {
    if SellCondition(df, i) then SignalRow(df[i], -1, SellLabel)
    else if BuyCondition(df, i) then SignalRow(df[i], 1, BuyLabel)
    else SignalRow(df[i], 0, "")
  }

  /** `detect_signals`: copy the frame with `signal` 0 and an empty type, then
      mark the buy rows, then the sell rows. */
  method DetectSignals(df: seq<Row>) returns (marked: seq<SignalRow>)
    ensures |marked| == |df|
    ensures forall i :: 0 <= i < |df| ==> marked[i] == MarkAt(df, i)
  {
    var out := new SignalRow[|df|](i requires 0 <= i < |df| => SignalRow(df[i], 0, ""));
    var i := 0;
    while i < |df|
      invariant 0 <= i <= |df| && out.Length == |df|
      invariant forall j :: 0 <= j < i ==>
        out[j] == if BuyCondition(df, j) then SignalRow(df[j], 1, BuyLabel) else SignalRow(df[j], 0, "")
      invariant forall j :: i <= j < |df| ==> out[j] == SignalRow(df[j], 0, "")
    {
      if BuyCondition(df, i) {
        out[i] := SignalRow(df[i], 1, BuyLabel);
      }
      i := i + 1;
    }
    i := 0;
    while i < |df|
      invariant 0 <= i <= |df|
      invariant forall j :: 0 <= j < i ==> out[j] == MarkAt(df, j)
      invariant forall j :: i <= j < |df| ==>
        out[j] == if BuyCondition(df, j) then SignalRow(df[j], 1, BuyLabel) else SignalRow(df[j], 0, "")
    {
      if SellCondition(df, i) {
        out[i] := SignalRow(df[i], -1, SellLabel);
      }
      i := i + 1;
    }
    marked := out[..];
  }

  /** No row is tagged before index 60 (the 61st bar): a crossover needs MA60 at
      the previous bar, and MA60 is NaN for the first 59 bars. */
  lemma NoSignalDuringWarmUp(bars: seq<Bar>, rsi: seq<Option<real>>, i: int)
    requires |rsi| == |bars| && 0 <= i < |bars| && i < 60
    ensures MarkAt(CalculateIndicators(bars, rsi), i).signal == 0
  {
    var df := CalculateIndicators(bars, rsi);
    if i > 0 {
      assert df[i - 1].ma60.None?;
    }
  }

  /** The fields `get_latest_signal` reports for a tagged row. */
  datatype Snapshot = Snapshot(
    timestamp: int,
    signal: int,
    signalType: string,
    close: real,
    ma20: Option<real>,
    ma60: Option<real>,
    macdHist: real,
    rsi: Option<real>)

  function SnapshotOf(r: SignalRow): Snapshot {
    Snapshot(r.bar.timestamp, r.signal, r.signalType, r.bar.close, r.bar.ma20, r.bar.ma60, r.bar.macdHist, r.bar.rsi)
  }

  /** The index of the last row before `n` with a non-zero signal, or -1. */
  function LatestIndex(marked: seq<SignalRow>, n: int): (k: int)
    requires 0 <= n <= |marked|
    ensures -1 <= k < n
    ensures k >= 0 ==> marked[k].signal != 0
    ensures forall j :: k < j < n ==> marked[j].signal == 0
  {
    if n == 0 then -1
    else if marked[n - 1].signal != 0 then n - 1
    else LatestIndex(marked, n - 1)
  }

  /** `get_latest_signal`: the last row with a non-zero signal, or nothing when
      there is none (in particular for an empty frame). */
  function LatestSignal(marked: seq<SignalRow>): (r: Option<Snapshot>)
    ensures r.None? <==> forall i :: 0 <= i < |marked| ==> marked[i].signal == 0
    ensures r.Some? ==> exists k :: 0 <= k < |marked| && marked[k].signal != 0 &&
                                   r.value == SnapshotOf(marked[k]) &&
                                   (forall j :: k < j < |marked| ==> marked[j].signal == 0)
  {
    var k := LatestIndex(marked, |marked|);
    if k < 0 then None else Some(SnapshotOf(marked[k]))
  }
}
