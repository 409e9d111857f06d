/** The backtester: a flat/holding state machine over the rows whose signal is
    not zero. A buy while flat opens at that row's close, a sell while holding
    closes and records a trade, and a position still held after the last row
    is settled at the last close. Each trade carries its return and the best
    and worst excursion over the bars it was held; the report adds the win
    rate, the mean return and the worst drawdown. */
module Backtest {
  import opened Series
  import opened Indicators

  const Win: string := "✅"
  const Loss: string := "❌"

  datatype Trade = Trade(
    date: int,
    signalType: string,
    entryPrice: real,
    exitPrice: real,
    highPrice: real,
    lowPrice: real,
    returnPct: real,
    maxReturn: real,
    maxDrawdown: real,
    status: string)

  /** `{}` for an empty frame; otherwise the report. A frame without signals
      reports no `total_trades` entry, hence the Option. */
  datatype Result =
    | Empty
    | Report(totalSignals: nat, totalTrades: Option<nat>, winRate: real, avgReturn: real,
             maxDrawdown: real, trades: seq<Trade>)

  /** The frame's index (the timestamps) never decreases. */
  predicate Sorted(df: seq<SignalRow>) {
    forall i, j :: 0 <= i <= j < |df| ==> df[i].bar.timestamp <= df[j].bar.timestamp
  }

  /** Every bar's close lies between its low and its high. */
  predicate RowsWellFormed(df: seq<SignalRow>) {
    forall i :: 0 <= i < |df| ==> df[i].bar.low <= df[i].bar.close <= df[i].bar.high
  }

  /** Buy rows have a usable entry price: the return divides by it. */
  predicate PricedEntries(df: seq<SignalRow>) {
    forall i :: 0 <= i < |df| && df[i].signal == 1 ==> df[i].bar.close != 0.0
  }

  predicate PositiveEntries(df: seq<SignalRow>) {
    forall i :: 0 <= i < |df| && df[i].signal == 1 ==> df[i].bar.close > 0.0
  }

  /** `len(df[df["signal"] != 0])`. */
  function CountSignals(df: seq<SignalRow>): (n: nat)
    ensures n <= |df|
    ensures n == 0 <==> forall i :: 0 <= i < |df| ==> df[i].signal == 0
  {
    if |df| == 0 then 0
    else
      assert forall i :: 0 <= i < |df| - 1 ==> df[..|df| - 1][i] == df[i];
      CountSignals(df[..|df| - 1]) + (if df[|df| - 1].signal != 0 then 1 else 0)
  }

  /** The number of buy rows. */
  function CountBuys(df: seq<SignalRow>): (n: nat)
    ensures n <= CountSignals(df)
  {
    if |df| == 0 then 0
    else CountBuys(df[..|df| - 1]) + (if df[|df| - 1].signal == 1 then 1 else 0)
  }

  /** The frame's bars, in frame order. */
  function Bars(df: seq<SignalRow>): (bars: seq<Row>)
    ensures |bars| == |df| && forall i :: 0 <= i < |df| ==> bars[i] == df[i].bar
  {
    seq(|df|, i requires 0 <= i < |df| => df[i].bar)
  }

  predicate InWindow(ts: int, from: int, to: Option<int>) {
    from <= ts && (to.None? || ts <= to.value)
  }

  /** The bars whose timestamp lies in `[from, to]` (or `[from, ...)` without
      `to`), in frame order: the boolean-mask selection on the index. */
  function Window(df: seq<SignalRow>, from: int, to: Option<int>): (w: seq<Row>)
    ensures |w| <= |df|
    ensures forall k :: 0 <= k < |w| ==> InWindow(w[k].timestamp, from, to)
    ensures forall i :: 0 <= i < |df| && InWindow(df[i].bar.timestamp, from, to) ==> df[i].bar in w
  {
    if |df| == 0 then []
    else
      var rest := Window(df[..|df| - 1], from, to);
      var last := df[|df| - 1].bar;
      assert forall i :: 0 <= i < |df| - 1 ==> df[..|df| - 1][i] == df[i];
      if InWindow(last.timestamp, from, to) then rest + [last] else rest
  }

  /** Every bar the window keeps is a bar of the frame. */
  lemma {:induction false} WindowFromFrame(df: seq<SignalRow>, from: int, to: Option<int>)
    ensures forall k :: 0 <= k < |Window(df, from, to)| ==> Window(df, from, to)[k] in Bars(df)
  {
    if |df| > 0 {
      var init := df[..|df| - 1];
      WindowFromFrame(init, from, to);
      assert forall i :: 0 <= i < |init| ==> Bars(init)[i] == Bars(df)[i];
    }
  }

  function HighestHigh(w: seq<Row>): (m: real)
    requires |w| > 0
    ensures forall k :: 0 <= k < |w| ==> w[k].high <= m
    ensures exists k :: 0 <= k < |w| && w[k].high == m
  {
    var highs := seq(|w|, k requires 0 <= k < |w| => w[k].high);
    assert forall k :: 0 <= k < |w| ==> highs[k] == w[k].high;
    MaxOf(highs)
  }

  function LowestLow(w: seq<Row>): (m: real)
    requires |w| > 0
    ensures forall k :: 0 <= k < |w| ==> m <= w[k].low
    ensures exists k :: 0 <= k < |w| && w[k].low == m
  {
    var lows := seq(|w|, k requires 0 <= k < |w| => w[k].low);
    assert forall k :: 0 <= k < |w| ==> lows[k] == w[k].low;
    MinOf(lows)
  }

  /** A long trade from `entry` to `exit`, recorded at `date`, held over the bars
      of `window`. With an empty window the excursion falls back to the exit
      and entry prices. */
  function TradeOf(date: int, entry: real, exit: real, window: seq<Row>): (t: Trade)
    requires entry != 0.0
    ensures t.date == date && t.signalType == BuyLabel && t.entryPrice == entry && t.exitPrice == exit
    ensures t.returnPct == (exit - entry) / entry * 100.0
    ensures t.status == Win <==> t.returnPct > 0.0
    ensures t.status == Loss <==> t.returnPct <= 0.0
    ensures |window| > 0 ==>
      && (forall k :: 0 <= k < |window| ==> t.lowPrice <= window[k].low && window[k].high <= t.highPrice)
      && (exists k :: 0 <= k < |window| && window[k].high == t.highPrice)
      && (exists k :: 0 <= k < |window| && window[k].low == t.lowPrice)
      && t.maxReturn == (t.highPrice - entry) / entry * 100.0
      && t.maxDrawdown == (t.lowPrice - entry) / entry * 100.0
    ensures |window| == 0 ==>
      t.highPrice == exit && t.lowPrice == entry && t.maxReturn == t.returnPct && t.maxDrawdown == 0.0
  {
    var returnPct := (exit - entry) / entry * 100.0;
    var status := if returnPct > 0.0 then Win else Loss;
    if |window| > 0 then
      var high, low := HighestHigh(window), LowestLow(window);
      Trade(date, BuyLabel, entry, exit, high, low, returnPct,
        (high - entry) / entry * 100.0, (low - entry) / entry * 100.0, status)
    else
      Trade(date, BuyLabel, entry, exit, exit, entry, returnPct, returnPct, 0.0, status)
  }

  /** A positive entry price that lies within one of the window's bars bounds
      the excursions: the worst is at most 0, the best at least 0. */
  lemma TradeExcursionSigns(date: int, entry: real, exit: real, window: seq<Row>, k: int)
    requires entry > 0.0 && 0 <= k < |window| && window[k].low <= entry <= window[k].high
    ensures TradeOf(date, entry, exit, window).maxDrawdown <= 0.0 <= TradeOf(date, entry, exit, window).maxReturn
  {
    var t := TradeOf(date, entry, exit, window);
    assert t.lowPrice - entry <= 0.0 <= t.highPrice - entry;
    SignOfRatio(t.lowPrice - entry, entry);
    SignOfRatio(t.highPrice - entry, entry);
  }

  /** Sign step for the excursions: dividing by a positive entry price keeps
      the sign of the price difference. */
  lemma SignOfRatio(a: real, e: real)
    requires e > 0.0
    ensures a <= 0.0 ==> a / e * 100.0 <= 0.0
    ensures a >= 0.0 ==> a / e * 100.0 >= 0.0
  {
    assert a / e * e == a;
  }

  datatype Position = Flat | Holding(entry: nat)

  datatype State = State(position: Position, trades: seq<Trade>)

  /** An open position refers to an earlier buy row. */
  predicate HeldBefore(df: seq<SignalRow>, s: State, n: int) {
    s.position.Holding? ==> s.position.entry < n && s.position.entry < |df| && df[s.position.entry].signal == 1
  }

  /** One signal row. A buy while flat opens at the row's close; a sell while
      holding records the trade over the bars from the entry to this row and
      goes flat; anything else (a zero row, a buy while holding, a sell while
      flat) leaves the state alone. */
  function Step(df: seq<SignalRow>, s: State, i: nat): (next: State)
    requires i < |df| && PricedEntries(df) && HeldBefore(df, s, i)
    ensures HeldBefore(df, next, i + 1)
    ensures df[i].signal == 1 && s.position.Flat? ==> next == State(Holding(i), s.trades)
    ensures df[i].signal == -1 && s.position.Holding? ==>
      next == State(Flat, s.trades + [SellTrade(df, s.position.entry, i)])
    ensures !(df[i].signal == 1 && s.position.Flat?) && !(df[i].signal == -1 && s.position.Holding?) ==>
      next == s
  {
    var row := df[i];
    if row.signal == 1 && s.position.Flat? then State(Holding(i), s.trades)
    else if row.signal == -1 && s.position.Holding? then
      State(Flat, s.trades + [SellTrade(df, s.position.entry, i)])
    else s
  }

  /** The trade a sell at row `i` records for the position opened at row `e`:
      it exits at this row's close and is held over the bars from the entry
      to this row. */
  function SellTrade(df: seq<SignalRow>, e: nat, i: nat): Trade
    requires e < i < |df| && df[e].bar.close != 0.0
  {
    TradeOf(df[i].bar.timestamp, df[e].bar.close, df[i].bar.close,
            Window(df, df[e].bar.timestamp, Some(df[i].bar.timestamp)))
  }

  /** The state after the first `n` rows. */
  function Replay(df: seq<SignalRow>, n: nat): (s: State)
    requires n <= |df| && PricedEntries(df)
    ensures HeldBefore(df, s, n)
  {
    if n == 0 then State(Flat, []) else Step(df, Replay(df, n - 1), n - 1)
  }

  /** The trade that settles a position still open after the last row: it exits
      at the last close, is dated at the last bar and is held over every bar
      from the entry on. */
  function Settlement(df: seq<SignalRow>, e: nat): (t: Trade)
    requires e < |df| && df[e].bar.close != 0.0
    ensures t.exitPrice == df[|df| - 1].bar.close && t.entryPrice == df[e].bar.close
    ensures t.date == df[|df| - 1].bar.timestamp
  {
    var last := df[|df| - 1].bar;
    TradeOf(last.timestamp, df[e].bar.close, last.close, Window(df, df[e].bar.timestamp, None))
  }

  /** Every trade of the run, the settlement included. */
  function AllTrades(df: seq<SignalRow>): (trades: seq<Trade>)
    requires PricedEntries(df)
    ensures Replay(df, |df|).position.Flat? ==> trades == Replay(df, |df|).trades
    ensures Replay(df, |df|).position.Holding? ==>
      trades == Replay(df, |df|).trades + [Settlement(df, Replay(df, |df|).position.entry)]
  {
    var s := Replay(df, |df|);
    match s.position
    case Flat => s.trades
    case Holding(e) => s.trades + [Settlement(df, e)]
  }

  /** The trades with a positive return: none exactly when no trade gained,
      all exactly when every trade gained. */
  function CountWins(trades: seq<Trade>): (n: nat)
    ensures n <= |trades|
    ensures n == 0 <==> forall k :: 0 <= k < |trades| ==> trades[k].returnPct <= 0.0
    ensures n == |trades| <==> forall k :: 0 <= k < |trades| ==> trades[k].returnPct > 0.0
  {
    if |trades| == 0 then 0
    else CountWins(trades[..|trades| - 1]) + (if trades[|trades| - 1].returnPct > 0.0 then 1 else 0)
  }

  /** The sum of the trades' returns. */
  function SumReturns(trades: seq<Trade>): real
  {
    if |trades| == 0 then 0.0 else SumReturns(trades[..|trades| - 1]) + trades[|trades| - 1].returnPct
  }

  /** Returns between `lo` and `hi` sum to between `n*lo` and `n*hi`. */
  lemma {:induction false} SumReturnsBetween(trades: seq<Trade>, lo: real, hi: real)
    requires forall k :: 0 <= k < |trades| ==> lo <= trades[k].returnPct <= hi
    ensures |trades| as real * lo <= SumReturns(trades) <= |trades| as real * hi
  {
    if |trades| > 0 {
      var init := trades[..|trades| - 1];
      assert forall k :: 0 <= k < |init| ==> init[k] == trades[k];
      SumReturnsBetween(init, lo, hi);
      var m := |init| as real;
      assert |trades| as real * lo == m * lo + lo;
      assert |trades| as real * hi == m * hi + hi;
    }
  }

  /** `min` over the trades' drawdowns. */
  function WorstDrawdown(trades: seq<Trade>): (m: real)
    requires |trades| > 0
    ensures forall k :: 0 <= k < |trades| ==> m <= trades[k].maxDrawdown
    ensures exists k :: 0 <= k < |trades| && trades[k].maxDrawdown == m
  {
    if |trades| == 1 then trades[0].maxDrawdown
    else
      var init := trades[..|trades| - 1];
      assert forall k :: 0 <= k < |init| ==> init[k] == trades[k];
      Min(WorstDrawdown(init), trades[|trades| - 1].maxDrawdown)
  }

  /** The share of winning trades, in percent; 0 without trades. */
  function WinRate(trades: seq<Trade>): (r: real)
    ensures 0.0 <= r <= 100.0
    ensures |trades| == 0 ==> r == 0.0
    ensures |trades| > 0 && CountWins(trades) == |trades| ==> r == 100.0
    ensures CountWins(trades) == 0 ==> r == 0.0
  {
    if |trades| == 0 then 0.0
    else
      UnitRatio(CountWins(trades) as real, |trades| as real);
      CountWins(trades) as real / |trades| as real * 100.0
  }

  /** The mean return; 0 without trades. Times the number of trades it gives
      their sum; `AvgReturnBetween` places it between the extreme returns. */
  function AvgReturn(trades: seq<Trade>): (r: real)
    ensures |trades| == 0 ==> r == 0.0
    ensures |trades| > 0 ==> r * |trades| as real == SumReturns(trades)
  {
    if |trades| == 0 then 0.0
    else
      MeanTimes(SumReturns(trades), |trades| as real);
      Mean(SumReturns(trades), |trades| as real)
  }

  /** The mean return lies between the smallest and the largest return. */
  lemma AvgReturnBetween(trades: seq<Trade>)
    requires |trades| > 0
    ensures MinReturn(trades) <= AvgReturn(trades) <= MaxReturn(trades)
  {
    MeanReturnBetween(trades, MinReturn(trades), MaxReturn(trades));
  }

  /** Returns between `lo` and `hi` have their mean between them. */
  lemma MeanReturnBetween(trades: seq<Trade>, lo: real, hi: real)
    requires |trades| > 0
    requires forall k :: 0 <= k < |trades| ==> lo <= trades[k].returnPct <= hi
    ensures lo <= Mean(SumReturns(trades), |trades| as real) <= hi
  {
    SumReturnsBetween(trades, lo, hi);
    MeanBetween(SumReturns(trades), |trades| as real, lo, hi);
  }

  /** The smallest return, attained. */
  function MinReturn(trades: seq<Trade>): (m: real)
    requires |trades| > 0
    ensures forall k :: 0 <= k < |trades| ==> m <= trades[k].returnPct
    ensures exists k :: 0 <= k < |trades| && trades[k].returnPct == m
  {
    var pcts := seq(|trades|, k requires 0 <= k < |trades| => trades[k].returnPct);
    assert forall k :: 0 <= k < |trades| ==> pcts[k] == trades[k].returnPct;
    MinOf(pcts)
  }

  /** The largest return, attained. */
  function MaxReturn(trades: seq<Trade>): (m: real)
    requires |trades| > 0
    ensures forall k :: 0 <= k < |trades| ==> trades[k].returnPct <= m
    ensures exists k :: 0 <= k < |trades| && trades[k].returnPct == m
  {
    var pcts := seq(|trades|, k requires 0 <= k < |trades| => trades[k].returnPct);
    assert forall k :: 0 <= k < |trades| ==> pcts[k] == trades[k].returnPct;
    MaxOf(pcts)
  }

  /** A sum of `n` terms, each between `lo` and `hi`, divided by `n` lies
      between them. */
  lemma MeanBetween(total: real, n: real, lo: real, hi: real)
    requires n > 0.0 && n * lo <= total <= n * hi
    ensures lo <= Mean(total, n) <= hi
  {
  }

  /** Spreading `total` over `n` parts and multiplying back gives `total`. */
  lemma MeanTimes(total: real, n: real)
    requires n > 0.0
    ensures Mean(total, n) * n == total
  {
  }

  /** `total` spread over `n` parts. */
  function Mean(total: real, n: real): real
    requires n > 0.0
  {
    total / n
  }

  /** `min` over the trades' drawdowns; 0 without trades. */
  function MaxDrawdown(trades: seq<Trade>): (m: real)
    ensures |trades| == 0 ==> m == 0.0
    ensures |trades| > 0 ==> forall k :: 0 <= k < |trades| ==> m <= trades[k].maxDrawdown
    ensures |trades| > 0 ==> exists k :: 0 <= k < |trades| && trades[k].maxDrawdown == m
  {
    if |trades| == 0 then 0.0 else WorstDrawdown(trades)
  }

  /** `run_backtest` as a value. */
  function BacktestOf(df: seq<SignalRow>): (r: Result)
    requires PricedEntries(df)
    ensures r.Empty? <==> |df| == 0
    ensures |df| > 0 && CountSignals(df) == 0 ==> r == Report(0, None, 0.0, 0.0, 0.0, [])
    ensures |df| > 0 && CountSignals(df) > 0 ==>
      && r.totalSignals == CountSignals(df)
      && r.trades == AllTrades(df)
      && r.totalTrades == Some(|AllTrades(df)|)
      && r.winRate == WinRate(r.trades)
      && r.avgReturn == AvgReturn(r.trades)
      && r.maxDrawdown == MaxDrawdown(r.trades)
    ensures r.Report? ==> 0.0 <= r.winRate <= 100.0
  {
    if |df| == 0 then Empty
    else if CountSignals(df) == 0 then Report(0, None, 0.0, 0.0, 0.0, [])
    else
      var trades := AllTrades(df);
      Report(CountSignals(df), Some(|trades|), WinRate(trades), AvgReturn(trades), MaxDrawdown(trades), trades)
  }

  /** `run_backtest`: select the signal rows, replay them, settle a position
      still open, then summarise. */
  method RunBacktest(df: seq<SignalRow>) returns (r: Result)
    requires PricedEntries(df)
    ensures r == BacktestOf(df)
  {
    if |df| == 0 {
      return Empty;
    }
    var signals := CountSignalRows(df);
    if signals == 0 {
      return Report(0, None, 0.0, 0.0, 0.0, []);
    }
    var trades := ReplaySignals(df);
    var winRate, avgReturn, maxDrawdown := Summarise(trades);
    return Report(signals, Some(|trades|), winRate, avgReturn, maxDrawdown, trades);
  }

  /** The number of rows with a non-zero signal. */
  method CountSignalRows(df: seq<SignalRow>) returns (signals: nat)
    ensures signals == CountSignals(df)
  {
    signals := 0;
    var i := 0;
    while i < |df|
      invariant 0 <= i <= |df| && signals == CountSignals(df[..i])
    {
      assert df[..i + 1][..i] == df[..i];
      if df[i].signal != 0 {
        signals := signals + 1;
      }
      i := i + 1;
    }
    assert df[..|df|] == df;
  }

  /** The trade loop over the signal rows and the settlement at the last close. */
  method ReplaySignals(df: seq<SignalRow>) returns (trades: seq<Trade>)
    requires PricedEntries(df)
    ensures trades == AllTrades(df)
  {
    var position;
    position, trades := ReplayRows(df);
    if position.Holding? {
      trades := trades + [Settlement(df, position.entry)];
    }
  }

  /** The loop over the signal rows, before the settlement. */
  method ReplayRows(df: seq<SignalRow>) returns (position: Position, trades: seq<Trade>)
    requires PricedEntries(df)
    ensures State(position, trades) == Replay(df, |df|)
  {
    position := Flat;
    trades := [];
    var i := 0;
    while i < |df|
      invariant 0 <= i <= |df| && State(position, trades) == Replay(df, i)
    {
      ReplayStep(df, i);
      position, trades := StepRow(df, position, trades, i);
      i := i + 1;
    }
  }

  /** One more row of the replay is one more `Step`. */
  lemma ReplayStep(df: seq<SignalRow>, i: nat)
    requires i < |df| && PricedEntries(df)
    ensures HeldBefore(df, Replay(df, i), i)
    ensures Replay(df, i + 1) == Step(df, Replay(df, i), i)
  {
  }

  /** The body of the replay loop for row `i`. */
  method StepRow(df: seq<SignalRow>, position: Position, trades: seq<Trade>, i: nat)
    returns (position': Position, trades': seq<Trade>)
    requires i < |df| && PricedEntries(df) && HeldBefore(df, State(position, trades), i)
    ensures State(position', trades') == Step(df, State(position, trades), i)
  {
    position', trades' := position, trades;
    var row := df[i];
    if row.signal == 1 {
      if position.Flat? {
        position' := Holding(i);
      }
    } else if row.signal == -1 {
      if position.Holding? {
        var e := position.entry;
        var window := Window(df, df[e].bar.timestamp, Some(row.bar.timestamp));
        trades' := trades + [TradeOf(row.bar.timestamp, df[e].bar.close, row.bar.close, window)];
        assert trades' == trades + [SellTrade(df, e, i)];
        position' := Flat;
      }
    }
  }

  /** Win rate, mean return and worst drawdown over the trades, all 0 without
      trades. */
  method Summarise(trades: seq<Trade>) returns (winRate: real, avgReturn: real, maxDrawdown: real)
    ensures winRate == WinRate(trades) && avgReturn == AvgReturn(trades) && maxDrawdown == MaxDrawdown(trades)
  {
    var wins := 0;
    var total := 0.0;
    var worst := 0.0;
    var k := 0;
    while k < |trades|
      invariant 0 <= k <= |trades|
      invariant wins == CountWins(trades[..k]) && total == SumReturns(trades[..k])
      invariant k > 0 ==> worst == WorstDrawdown(trades[..k])
    {
      assert trades[..k + 1][..k] == trades[..k];
      var t := trades[k];
      if t.returnPct > 0.0 {
        wins := wins + 1;
      }
      total := total + t.returnPct;
      worst := if k == 0 then t.maxDrawdown else Min(worst, t.maxDrawdown);
      k := k + 1;
    }
    assert trades[..|trades|] == trades;
    winRate, avgReturn, maxDrawdown := 0.0, 0.0, 0.0;
    if |trades| > 0 {
      winRate := wins as real / |trades| as real * 100.0;
      avgReturn := total / |trades| as real;
      maxDrawdown := worst;
    }
  }

  /** Each trade needs its own buy, and an open position holds one more: the
      trades never outnumber the buy rows. */
  lemma {:induction false} ReplayTradesAtMostBuys(df: seq<SignalRow>, n: nat)
    requires n <= |df| && PricedEntries(df)
    ensures |Replay(df, n).trades| + (if Replay(df, n).position.Holding? then 1 else 0) <= CountBuys(df[..n])
  {
    if n > 0 {
      ReplayTradesAtMostBuys(df, n - 1);
      ReplayStep(df, n - 1);
      CountBuysStep(df, n);
    }
  }

  lemma CountBuysStep(df: seq<SignalRow>, n: nat)
    requires 0 < n <= |df|
    ensures CountBuys(df[..n]) == CountBuys(df[..n - 1]) + (if df[n - 1].signal == 1 then 1 else 0)
  {
    assert df[..n][..n - 1] == df[..n - 1];
  }

  lemma AllTradesAtMostBuys(df: seq<SignalRow>)
    requires PricedEntries(df)
    ensures |AllTrades(df)| <= CountBuys(df)
  {
    ReplayTradesAtMostBuys(df, |df|);
    assert df[..|df|] == df;
  }

  /** With a single buy row and no sell row, the replay is flat up to the buy
      and holds it afterwards, without closing anything. */
  lemma {:induction false} ReplayOneBuy(df: seq<SignalRow>, b: nat, n: nat)
    requires PricedEntries(df) && b < |df| && n <= |df| && df[b].signal == 1
    requires forall i :: 0 <= i < |df| && i != b ==> df[i].signal != 1 && df[i].signal != -1
    ensures Replay(df, n) == if n <= b then State(Flat, []) else State(Holding(b), [])
  {
    if n > 0 {
      ReplayOneBuy(df, b, n - 1);
    }
  }

  /** One buy and no other signal yields exactly one trade: the settlement of
      that buy. */
  lemma OneBuyOneTrade(df: seq<SignalRow>, b: nat)
    requires PricedEntries(df) && b < |df| && df[b].signal == 1
    requires forall i :: 0 <= i < |df| && i != b ==> df[i].signal == 0
    ensures AllTrades(df) == [Settlement(df, b)]
    ensures BacktestOf(df).totalTrades == Some(1) && BacktestOf(df).totalSignals == 1
  {
    ReplayOneBuy(df, b, |df|);
    OnlySignalCounted(df, b, |df|);
    assert df[..|df|] == df;
  }

  /** The signal count of a frame whose only non-zero row is `b`. */
  lemma {:induction false} OnlySignalCounted(df: seq<SignalRow>, b: nat, n: nat)
    requires b < |df| && n <= |df| && df[b].signal != 0
    requires forall i :: 0 <= i < |df| && i != b ==> df[i].signal == 0
    ensures CountSignals(df[..n]) == if n <= b then 0 else 1
  {
    if n > 0 {
      OnlySignalCounted(df, b, n - 1);
      assert df[..n][..n - 1] == df[..n - 1];
    }
  }

  /** On a sorted frame of well-formed bars with positive buy prices, every
      trade's worst excursion is at most 0 and its best at least 0: the entry
      bar lies in the trade's window. */
  lemma ReplayExcursionSigns(df: seq<SignalRow>, n: nat)
    requires n <= |df| && Sorted(df) && RowsWellFormed(df) && PositiveEntries(df)
    ensures PricedEntries(df)
    ensures forall k :: 0 <= k < |Replay(df, n).trades| ==>
      Replay(df, n).trades[k].maxDrawdown <= 0.0 <= Replay(df, n).trades[k].maxReturn
  {
    forall e, i | 0 <= e < i < |df| && df[e].bar.close > 0.0
      ensures Signed(SellTrade(df, e, i))
    {
      SellTradeSigns(df, e, i);
    }
    ReplaySigned(df, n);
  }

  /** A trade whose worst excursion is at most 0 and whose best is at least 0. */
  predicate Signed(t: Trade) {
    t.maxDrawdown <= 0.0 <= t.maxReturn
  }

  /** Every trade a sell may record from a positive entry is signed. */
  predicate SellsSigned(df: seq<SignalRow>) {
    forall e, i :: 0 <= e < i < |df| && df[e].bar.close > 0.0 ==> Signed(SellTrade(df, e, i))
  }

  /** When every trade a sell may record is signed, so is every trade the
      replay records. */
  lemma {:induction false} ReplaySigned(df: seq<SignalRow>, n: nat)
    requires n <= |df| && PositiveEntries(df) && SellsSigned(df)
    ensures PricedEntries(df)
    ensures forall k :: 0 <= k < |Replay(df, n).trades| ==> Signed(Replay(df, n).trades[k])
  {
    if n > 0 {
      ReplaySigned(df, n - 1);
      ReplayStep(df, n - 1);
      var s := Replay(df, n - 1);
      var i := n - 1;
      if df[i].signal == -1 && s.position.Holding? {
        SignedAppend(s.trades, SellTrade(df, s.position.entry, i));
      }
    }
  }

  /** Appending a signed trade to signed trades keeps them signed. */
  lemma SignedAppend(trades: seq<Trade>, t: Trade)
    requires forall k :: 0 <= k < |trades| ==> Signed(trades[k])
    requires Signed(t)
    ensures forall k :: 0 <= k < |trades + [t]| ==> Signed((trades + [t])[k])
  {
  }

  /** The trade a sell at row `i` records for a position opened at row `e`
      has drawdown at most 0 and best return at least 0. */
  lemma SellTradeSigns(df: seq<SignalRow>, e: nat, i: nat)
    requires e < i < |df| && Sorted(df) && RowsWellFormed(df) && df[e].bar.close > 0.0
    ensures SellTrade(df, e, i).maxDrawdown <= 0.0 <= SellTrade(df, e, i).maxReturn
  {
    var window := Window(df, df[e].bar.timestamp, Some(df[i].bar.timestamp));
    assert df[e].bar in window;
    var k :| 0 <= k < |window| && window[k] == df[e].bar;
    TradeExcursionSigns(df[i].bar.timestamp, df[e].bar.close, df[i].bar.close, window, k);
  }

  lemma ExcursionSigns(df: seq<SignalRow>)
    requires Sorted(df) && RowsWellFormed(df) && PositiveEntries(df)
    ensures PricedEntries(df)
    ensures forall k :: 0 <= k < |AllTrades(df)| ==> AllTrades(df)[k].maxDrawdown <= 0.0 <= AllTrades(df)[k].maxReturn
    ensures BacktestOf(df).Report? ==> BacktestOf(df).maxDrawdown <= 0.0
  {
    ReplayExcursionSigns(df, |df|);
    var s := Replay(df, |df|);
    if s.position.Holding? {
      var e := s.position.entry;
      var window := Window(df, df[e].bar.timestamp, None);
      assert df[e].bar in window;
      var k :| 0 <= k < |window| && window[k] == df[e].bar;
      TradeExcursionSigns(df[|df| - 1].bar.timestamp, df[e].bar.close, df[|df| - 1].bar.close, window, k);
    }
  }
}
