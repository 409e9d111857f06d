# Crypto trading-signal pipeline, modelled in Dafny

This project models the decision core of a small cryptocurrency signal bot:

- **Detectors.** Three detectors read a frame of price bars and give a verdict on its latest bar: a buy, a sell or no tradable signal, with a strength.
  - The EMA detector looks for a fast/slow exponential-average crossover.
  - The MACD detector looks for a sign change of the histogram.
  - The KDJ detector looks for a stochastic K/D crossover, with a bonus in the oversold and overbought zones.
- **Consensus.** The signal manager combines the three verdicts by majority vote. It averages their strengths and grades the result as strong, medium or weak. A level gate then decides whether to send a notification.
- **Signal column.** The indicator calculator computes MA20/MA60, the MACD histogram and RSI. It tags each bar with a buy (1), a sell (-1) or nothing (0).
- **Backtester.** The backtester replays that column as a flat/holding state machine. It records one trade per round trip and summarises the trades as a win rate, a mean return and the worst drawdown.
- **Position ledger.** The position ledger keeps, per symbol, an ordered list of position records.
  - Records can be opened and closed, with side-aware profit and loss and whole days held.
  - Records held too long are force-closed.
  - The ledger answers queries for the open records and for statistics.

## Modules

| file | module | what it holds |
|---|---|---|
| `series.dfy` | `Series` | `Option` (pandas NaN), the price bar, Python `min`/`max`, series extremes and sums |
| `smoothing.dfy` | `Smoothing` | `ewm(adjust=False)` as a fold (`Ema`), the span form, and the MACD lines |
| `detector.dfy` | `Detector` | The verdict record and directions every detector shares, the warm-up verdict and the crossover test |
| `ema_signal.dfy`, `macd_signal.dfy`, `kdj_signal.dfy` | `EmaSignal`, `MacdSignal`, `KdjSignal` | The three detectors |
| `signal_manager.dfy` | `SignalManager` | Vote, mean strength, level, `analyze`, `should_notify` |
| `indicators.dfy` | `Indicators` | SMA, the indicator frame, `detect_signals` (a loop writing an array), `get_latest_signal` |
| `backtest.dfy` | `Backtest` | The trade replay, proved against a value-level specification (`BacktestOf`) |
| `position_manager.dfy` | `PositionLedger` | The ledger: class `PositionManager` with `symbols` (the dictionary's key order) and `positions` (the map of lists) |

### Modelling choices

- **Types.**
  - Prices are reals, and pandas' NaN is `None`.
  - Times are integers in microseconds since the epoch.
  - `timedelta.days` is the floor of a difference divided by a day. Dafny's `/` on integers is Euclidean, which is the floor for a positive divisor.
- **Clock readings are parameters.** Every `datetime.now()` is passed in:
  - `now` for entry, exit and age (one reading per call; see "Left out");
  - `stamp` for the `%Y%m%d_%H%M%S` text inside a new id.
- **Python falsiness is kept.**
  - An empty position id selects like no id.
  - An empty symbol queries every symbol.
- **NaN slope.** A one-bar EMA frame has a NaN last step (`diff()`), and Python's `min(1.0, nan)` is 1.0. The model gives a missing slope and strength 1.
- **Backtester frame.** The backtester reads the tagged frame `detect_signals` produces. Its index is the bar timestamp.
- **Behaviour that differs from the documentation.**
  - The MACD strength is not bounded by 1. The second term, `abs(macd - signal) / abs(macd)`, is not clamped. Yet the docstrings of the EMA detector (`signals/ema_signal.py:31`) and of `analyze` (`signals/signal_manager.py:56`) describe strengths in 0.0–1.0; the MACD `detect_signal` docstring gives no range.
  - `open_position` has no duplicate guard. Only the caller in `main_v2.py` checks for an open record first.

  The model follows the code in both cases and proves the consequences (`MacdSignal.StrengthCanExceedOne`, `PositionLedger.OpenTwiceTwoOpen`).

## Model

| member | source | states |
|---|---|---|
| `Series.MaxOf` | signals/kdj_signal.py:33 | The maximum bounds every element of the series and is one of them |
| `Series.MinOf` | signals/kdj_signal.py:32 | The minimum is below every element of the series and is one of them |
| `Series.Min` | signals/kdj_signal.py:86 | Python `min(a, b)` is at most both arguments and equals one of them |
| `Smoothing.Blend` | signals/kdj_signal.py:39 | One smoothing step, `a*x + (1-a)*previous`; `ConvexStep` keeps it between any bounds its two arguments respect |
| `Smoothing.Ema` | signals/kdj_signal.py:39-42 | `ewm(alpha, adjust=False).mean()` gives one output per input; `EmaRecurrence` states its values |
| `Smoothing.EmaPrefix` | signals/ema_signal.py:17-19 | Smoothing a prefix gives the prefix of the smoothed series: the average never looks ahead |
| `Smoothing.EmaRecurrence` | signals/ema_signal.py:17-19 | The first output is the first input; each later output is `a*x + (1-a)*previous output` |
| `Smoothing.EmaSpan` | app/indicators.py:19-21 | `ewm(span=n)` uses `a = 2/(n+1)` in the recurrence above |
| `Smoothing.SpanAlphaInRange` | signals/macd_signal.py:16-18 | A span of at least 1 gives a smoothing factor in (0, 1] |
| `Smoothing.EmaSpanBounded` | signals/macd_signal.py:16-18 | A span average stays within any bounds all its inputs respect |
| `Smoothing.EmaBounded` | signals/kdj_signal.py:39-42 | With a factor in [0, 1], every output stays within any bounds all inputs respect |
| `Smoothing.EmaConstant` | signals/ema_signal.py:17-19 | A flat input gives a flat output at the same level |
| `Smoothing.Macd` | signals/macd_signal.py:20-31 | The MACD line is fast EMA minus slow EMA, the signal line is the EMA of the MACD line, and the histogram is their difference, index by index |
| `Smoothing.MacdFlat` | app/indicators.py:23-34 | A flat market has a zero MACD line, signal line and histogram throughout |
| `Detector.Crossover` | signals/ema_signal.py:57-58 | Up exactly when `a > b` now and `a <= b` before; Down exactly when `a < b` now and `a >= b` before |
| `Detector.CrossoverSwap` | signals/ema_signal.py:57-58 | Exchanging the two lines turns an upward cross into a downward one and back |
| `EmaSignal.Gap` | signals/ema_signal.py:61 | The relative gap is non-negative and is 0 when the slow average is not positive |
| `EmaSignal.Slope` | signals/ema_signal.py:62 | The relative last step is non-negative. It is missing (NaN) exactly when the close is positive and there is one bar |
| `EmaSignal.CombinedStrength` | signals/ema_signal.py:64 | The strength lies in [0, 1] and equals `10*gap + 100*slope` below the cap |
| `EmaSignal.CrossStrength` | signals/ema_signal.py:61-64 | The crossover strength of a frame lies in [0, 1] |
| `EmaSignal.Detect` | signals/ema_signal.py:36-109 | A frame that is empty or shorter than the slow period gives the warm-up verdict. Otherwise: buy exactly on an upward cross, sell exactly on a downward one, each at the crossover strength. Without a cross the strength is halved and the type is "趋势多头" exactly when fast > slow. The strength is always in [0, 1] |
| `EmaSignal.CrossDirectionsExclusive` | signals/ema_signal.py:57-58 | A buy and a sell never coincide; a buy is exactly a downward cross of the slow line under the fast one |
| `MacdSignal.BaseStrength` | signals/macd_signal.py:67-69 | `abs(h_last) / max(abs(h))` lies in [0, 1] (the cap never applies); it is 0 when the histogram is zero throughout |
| `MacdSignal.Strength` | signals/macd_signal.py:72-74 | With a zero MACD line it is the base strength; otherwise it is the mean of the base and the unclamped `abs(macd - signal) / abs(macd)` |
| `MacdSignal.StrengthCanExceedOne` | signals/macd_signal.py:72-74 | A MACD line of 1 with a signal line of -3 gives a strength above 1 |
| `MacdSignal.CrossStrength` | signals/macd_signal.py:67-74 | The strength is never negative |
| `MacdSignal.Detect` | signals/macd_signal.py:41-122 | Warm-up verdict for a short or empty frame. Otherwise: buy exactly when `h > 0` now and `h <= 0` before, sell on the mirror condition. Without a cross the strength is halved and the type is "趋势多头" exactly when `h > 0` |
| `MacdSignal.FlatMarketIsQuiet` | signals/macd_signal.py:63-122 | A flat market gives no signal, zero strength and the bearish label, because a zero histogram is not above zero |
| `KdjSignal.RsvAt` | signals/kdj_signal.py:32-36 | RSV at one bar: 50 before the window fills, otherwise the close's percent position in the window's lowest-low to highest-high range |
| `KdjSignal.Percent` | signals/kdj_signal.py:35-36 | The percent position of a value in a range, 50 for a flat range |
| `KdjSignal.Rsv` | signals/kdj_signal.py:32-36 | One RSV value per bar: the close's percent position in the window's low–high range, 50 during warm-up and for a flat range |
| `KdjSignal.RsvInRange` | signals/kdj_signal.py:32-36 | For bars whose close lies between low and high, RSV is in [0, 100] |
| `KdjSignal.PercentInRange` | signals/kdj_signal.py:35 | A value between two bounds lies 0–100 percent of the way from the lower to the upper |
| `KdjSignal.WindowRange` | signals/kdj_signal.py:32-33 | The close of a well-formed last bar lies between the window's lowest low and highest high |
| `KdjSignal.Lines` | signals/kdj_signal.py:39-51 | K is RSV smoothed with factor 1/kPeriod, D is K smoothed with factor 1/dPeriod, and `J = 3K - 2D`, one value per bar |
| `KdjSignal.KdInRange` | signals/kdj_signal.py:32-45 | For well-formed bars, K and D stay in [0, 100] |
| `KdjSignal.BaseStrength` | signals/kdj_signal.py:85-86 | `min(1, abs(K - D) / 50)` lies in [0, 1] |
| `KdjSignal.Detect` | signals/kdj_signal.py:60-171 | Warm-up verdict for a short or empty frame. Otherwise: buy exactly on an upward K/D cross, with the +0.3 bonus (capped at 1) when oversold. Sell on the mirror condition, with the bonus when overbought. Without a cross the strength is base × 0.3 and the type is "位置" plus the zone. The strength is always in [0, 1] |
| `KdjSignal.ZonesExclusive` | signals/kdj_signal.py:89-90 | Oversold and overbought exclude each other, and the zone label names each exactly when it holds |
| `KdjSignal.BonusRaisesStrength` | signals/kdj_signal.py:96 | The bonus never lowers the strength and never passes 1; below 0.7 it adds exactly 0.3 |
| `SignalManager.EmptySignal` | signals/signal_manager.py:133-148 | The empty signal: no direction, zero strength, level "none", type "无", no votes, at the given time |
| `SignalManager.CountVotes` | signals/signal_manager.py:80-81 | A count of votes never exceeds the number of detectors |
| `SignalManager.VotesDisjoint` | signals/signal_manager.py:80-81 | Buy and sell counts together never exceed the number of detectors |
| `SignalManager.CountFlipped` | signals/signal_manager.py:80-81 | Flipping every vote exchanges the buy and sell counts |
| `SignalManager.Flipped` | signals/signal_manager.py:80-81 | Each flipped verdict is the original with buy and sell exchanged |
| `SignalManager.Decide` | signals/signal_manager.py:87-101 | Buy exactly on two buys, or one buy and no sell. Sell on the mirror condition. The "（弱）" labels appear exactly for the single-vote cases. No signal exactly when the type is "无" |
| `SignalManager.DecideSymmetric` | signals/signal_manager.py:87-101 | Exchanging the counts negates the vote |
| `SignalManager.Level` | signals/signal_manager.py:104-112 | "none" exactly when there is no signal. Otherwise the first threshold reached, strongest first |
| `SignalManager.Combine` | signals/signal_manager.py:76-131 | The counts are the buy and sell votes of the three verdicts and sum to at most 3. The strength is their mean whatever the vote. The direction and the type (with its "（弱）" labels) are the vote's. The level is the threshold grade of `Level`: "none" exactly without a direction |
| `SignalManager.CombineSymmetric` | signals/signal_manager.py:80-112 | Exchanging buy and sell in every verdict negates the consensus and keeps its level |
| `SignalManager.Analyze` | signals/signal_manager.py:68-131 | An empty frame gives no signal, zero strength, level "none", type "无", price 0 and zero counts. Otherwise it is the consensus of the three detectors at the last close |
| `SignalManager.ShortFrameIsQuiet` | signals/signal_manager.py:72-84 | A frame shorter than every detector's warm-up gives no signal and zero strength |
| `SignalManager.LevelRank` | signals/signal_manager.py:164-166 | The ranks none 0, weak 1, medium 2, strong 3; an unknown name gets the fallback |
| `SignalManager.ShouldNotify` | signals/signal_manager.py:161-168 | Never for no signal. Otherwise exactly when the level ranks at least the minimum (an unknown level ranks 0, an unknown minimum ranks 1) |
| `SignalManager.NotifyIffMediumStrength` | signals/signal_manager.py:104-168 | With the default minimum "medium" and ordered thresholds, a consensus is sent exactly when it has a direction and its strength reaches the medium threshold |
| `SignalManager.NotifyMonotone` | signals/signal_manager.py:164-168 | Raising the minimum level only ever suppresses notifications |
| `Indicators.SumConstant` | app/indicators.py:15-17 | A flat series of `n` values sums to `n` times the value |
| `Indicators.Sma` | app/indicators.py:15-17 | Undefined exactly for the first `n - 1` bars, then the mean of the trailing `n` closes |
| `Indicators.SmaFlat` | app/indicators.py:15-17 | On a flat stretch of at least `n` bars the moving average is the flat value |
| `Indicators.CalculateIndicators` | app/indicators.py:57-91 | Each row keeps its bar. MA20 and MA60 are the SMAs, undefined for the first 19 and 59 bars. The histogram is the MACD(12, 26, 9) histogram. RSI is the given series |
| `Indicators.CrossUp` | app/indicators.py:123 | MA20 above MA60 now and at most MA60 at the previous bar; never at the first bar, and never together with a downward cross |
| `Indicators.CrossDown` | app/indicators.py:124 | MA20 below MA60 now and at least MA60 at the previous bar; a missing average makes every comparison false |
| `Indicators.BuyCondition` | app/indicators.py:127-131 | The upward cross with a positive histogram and RSI above 50; it never holds together with the sell condition |
| `Indicators.SellCondition` | app/indicators.py:134-138 | The downward cross with a negative histogram and RSI below 60 |
| `Indicators.MarkAt` | app/indicators.py:119-145 | Signal 1 exactly under the buy condition and -1 exactly under the sell condition. 0 exactly under neither. The type is "买入", "卖出" or "" in step |
| `Indicators.DetectSignals` | app/indicators.py:93-147 | The two marking passes over the array tag every bar as `MarkAt` says; the result has one row per input row |
| `Indicators.NoSignalDuringWarmUp` | app/indicators.py:73-74 | No bar before index 60 is tagged: MA60 is undefined at the previous bar |
| `Indicators.LatestIndex` | app/indicators.py:163-167 | The index found holds a non-zero signal and every later bar holds 0 |
| `Indicators.LatestSignal` | app/indicators.py:159-178 | None exactly when no bar has a signal. Otherwise the fields of a bar with a signal after which no bar has one |
| `Backtest.CountSignals` | backtest.py:28 | The number of non-zero signal rows is at most the frame's length and is 0 exactly when every row is 0 |
| `Backtest.CountBuys` | backtest.py:47 | There are never more buy rows than signal rows |
| `Backtest.Window` | backtest.py:62-65 | Every bar kept lies in the date range and is a bar of the frame, and every bar of the frame in the range is kept |
| `Backtest.WindowFromFrame` | backtest.py:62-65 | Every bar a window keeps is a bar of the frame |
| `Backtest.HighestHigh` | backtest.py:68 | The highest high bounds every bar's high and is one of them |
| `Backtest.LowestLow` | backtest.py:69 | The lowest low is below every bar's low and is one of them |
| `Backtest.TradeOf` | backtest.py:57-90 | Return is `(exit - entry) / entry * 100`, and the status is "✅" exactly when it is positive. With bars in the window, high and low are the window's extremes, and the excursions are relative to entry. Without bars they fall back to the exit and entry prices, with drawdown 0 |
| `Backtest.TradeExcursionSigns` | backtest.py:68-71 | If the window holds a bar spanning a positive entry price, the drawdown is at most 0 and the best return at least 0 |
| `Backtest.SignOfRatio` | backtest.py:70-71 | Dividing by a positive entry keeps the sign of a price difference |
| `Backtest.Step` | backtest.py:42-91 | Buy while flat opens at that row. Sell while holding goes flat and appends exactly the trade from the entry row to this row. Every other row changes nothing. A held position always refers to an earlier buy row |
| `Backtest.SellTrade` | backtest.py:56-90 | The trade a sell records: entry at the buy row's close, exit at the sell row's close, dated at the sell row, held over the bars between them |
| `Backtest.Replay` | backtest.py:42-91 | After any prefix, a held position refers to a buy row within it |
| `Backtest.Settlement` | backtest.py:94-123 | A position held at the end exits at the last close and is dated at the last bar |
| `Backtest.AllTrades` | backtest.py:39-123 | The trades are the replay's trades, plus one settlement exactly when a position is still held |
| `Backtest.WorstDrawdown` | backtest.py:132 | The worst drawdown is at most every trade's drawdown and is one of them |
| `Backtest.CountWins` | backtest.py:128 | The winning trades: none exactly when no return is positive, all exactly when every return is |
| `Backtest.SumReturns` | backtest.py:131 | The sum of the returns |
| `Backtest.SumReturnsBetween` | backtest.py:131 | `n` returns between two bounds sum to between `n` times each bound |
| `Backtest.AvgReturn` | backtest.py:131 | 0 without trades; otherwise the mean return, which times the number of trades gives their sum |
| `Backtest.MeanReturnBetween` | backtest.py:131 | Returns between two bounds have their mean between them |
| `Backtest.AvgReturnBetween` | backtest.py:131 | The mean return lies between the smallest and the largest return |
| `Backtest.MinReturn` | backtest.py:127 | The smallest return bounds every return and is one of them |
| `Backtest.MaxReturn` | backtest.py:127 | The largest return bounds every return and is one of them |
| `Backtest.WinRate` | backtest.py:130 | The win rate lies in [0, 100]. It is 0 without trades or wins, and 100 when every trade wins |
| `Backtest.MaxDrawdown` | backtest.py:132-136 | 0 without trades, otherwise the smallest drawdown: at most every trade's drawdown and one of them |
| `Backtest.BacktestOf` | backtest.py:17-145 | `{}` exactly for an empty frame. A frame with no signal rows reports zeros, no trades and no trade count. Otherwise: the signal count, the replayed trades, their number, and the win rate, mean return and worst drawdown of those trades |
| `Backtest.RunBacktest` | backtest.py:17-145 | The method computes exactly `BacktestOf` |
| `Backtest.CountSignalRows` | backtest.py:28 | The loop counts exactly the non-zero signal rows |
| `Backtest.ReplaySignals` | backtest.py:39-123 | The loop and the final settlement produce exactly `AllTrades` |
| `Backtest.ReplayRows` | backtest.py:42-91 | The loop ends in the state `Replay` gives for the whole frame |
| `Backtest.StepRow` | backtest.py:43-91 | One loop iteration performs exactly the transition `Step` |
| `Backtest.Summarise` | backtest.py:126-136 | The summary loop computes exactly the win rate, mean return and worst drawdown, all 0 without trades |
| `Backtest.ReplayTradesAtMostBuys` | backtest.py:47-91 | After any prefix, trades plus the held position never outnumber the buy rows |
| `Backtest.AllTradesAtMostBuys` | backtest.py:39-123 | The report never holds more trades than the frame has buy rows |
| `Backtest.ReplayOneBuy` | backtest.py:47-55 | With a single buy and no sell, the replay is flat before the buy and holds it afterwards with no trade |
| `Backtest.OneBuyOneTrade` | backtest.py:94-139 | One buy and no other signal give exactly one trade, the settlement, with one signal counted |
| `Backtest.OnlySignalCounted` | backtest.py:139 | With one non-zero row, a prefix counts 1 exactly when it contains that row |
| `Backtest.ReplayExcursionSigns` | backtest.py:62-71 | On a sorted frame of well-formed bars with positive buy prices, every replayed trade has drawdown ≤ 0 ≤ best return |
| `Backtest.SellTradeSigns` | backtest.py:62-71 | On a sorted frame of well-formed bars, a trade from a positive entry has drawdown ≤ 0 ≤ best return |
| `Backtest.ReplaySigned` | backtest.py:42-91 | When every trade a sell may record is signed, so is every trade the replay records |
| `Backtest.ExcursionSigns` | backtest.py:62-136 | The same holds for the settlement too, so the report's worst drawdown is at most 0 |
| `PositionLedger.WholeDays` | position_manager.py:120-122 | `d` whole days: `d` days fit in the interval and `d + 1` do not |
| `PositionLedger.ProfitLoss` | position_manager.py:104-110 | A position gains exactly when the price moved its way (up for "买入", down otherwise), and breaks even exactly when exit equals entry |
| `PositionLedger.ProfitLossSides` | position_manager.py:105-110 | A long and a short position over the same prices have opposite results |
| `PositionLedger.LongCloseExample` | position_manager.py:104-107 | A long opened at 5.50 gains 0.10 (20/11 %) at 5.60 and loses 0.45 (-90/11 %) at 5.05 |
| `PositionLedger.Closing` | position_manager.py:103-122 | A settled record keeps its entry fields and is no longer open. It is "forced_close" exactly when forced. It carries exit price and time, side-aware P&L, P&L percent of entry, and whole days held |
| `PositionLedger.CloseList` | position_manager.py:96-124 | Selected records are settled, all others unchanged, and nothing selectable remains. Prices stay usable |
| `PositionLedger.Selects` | position_manager.py:97-101 | `close_position` touches only open records, and only the given id unless the id is missing or empty |
| `PositionLedger.ClosedOf` | position_manager.py:91-127 | The returned records are all closed and no more than the list held |
| `PositionLedger.ClosedAreChanged` | position_manager.py:96-127 | The returned list is exactly the records the call changed, in list order |
| `PositionLedger.NothingSelected` | position_manager.py:96-101 | A list with nothing selectable returns nothing |
| `PositionLedger.CloseTwice` | position_manager.py:96-101 | A second identical close changes nothing and returns nothing |
| `PositionLedger.ClosedOfSingle` | position_manager.py:100-124 | When exactly one record is selectable, exactly that record is settled and returned |
| `PositionLedger.OpenOf` | position_manager.py:176-178 | The records kept are all open, and every open record is kept |
| `PositionLedger.OpenOfAppend` | position_manager.py:72 | Appending a record adds it to the open ones exactly when it is open |
| `PositionLedger.NoneOpen` | position_manager.py:176-178 | A list without open records reports none |
| `PositionLedger.CloseAllLeavesNoneOpen` | position_manager.py:96-115 | Closing without an id leaves the symbol with no open record |
| `PositionLedger.OpenTwiceTwoOpen` | position_manager.py:69-72 | Opening twice adds two open records: there is no duplicate guard |
| `PositionLedger.GuardedOpenKeepsOne` | main_v2.py:141-144 | A caller that opens only when nothing is open leaves exactly one open record |
| `PositionLedger.Aged` | position_manager.py:146-152 | The sweep settles an open record once its whole days held reach the maximum |
| `PositionLedger.AgeBoundary` | position_manager.py:149-152 | A record is due for forced close at exactly the maximum whole days and not one microsecond earlier |
| `PositionLedger.SweepPricedClose` | position_manager.py:145-155 | Closing by an aged record's id divides only by usable prices and leaves every record still open as it was, so the next step's prices stay usable |
| `PositionLedger.SweepOf` | position_manager.py:145-155 | The sweep keeps the list's length, and every record a later step may settle keeps a usable price |
| `PositionLedger.SweepPrefix` | position_manager.py:145-155 | With distinct non-empty ids, after `n` records the sweep has settled exactly the aged open records among them, as forced closes, and returned them in order |
| `PositionLedger.SweepClosesAged` | position_manager.py:129-156 | With distinct non-empty ids and usable prices on the aged records, `check_forced_close` settles exactly the open records aged at least the maximum and returns them in list order. Every other record is kept |
| `PositionLedger.OpenAcross` | position_manager.py:168-180 | Every record returned for the queried symbols is open |
| `PositionLedger.Count` | position_manager.py:205-217 | One record adds one to the total and one to open or closed; a closed record with a recorded profit adds that profit and is a win exactly when the profit is positive, a loss when it is zero or negative; balance is kept |
| `PositionLedger.TallyAcross` | position_manager.py:201-217 | The tally over the queried symbols' lists, symbol by symbol; an unknown symbol adds nothing |
| `PositionLedger.TallyFrom` | position_manager.py:205-217 | Each record adds one to the total and keeps the tally balanced |
| `PositionLedger.TallyBalanced` | position_manager.py:201-217 | Total = open + closed, and wins + losses never exceed closed |
| `PositionLedger.TallyFromCountsOpen` | position_manager.py:206-209 | Counting a list adds exactly its open records to the open count |
| `PositionLedger.OpenCountsAgree` | position_manager.py:192-211 | The open count `get_statistics` reports equals the number of records `get_open_positions` returns for the same query |
| `PositionLedger.PercentBound` | position_manager.py:219 | A part of a positive whole is 0–100 percent of it |
| `PositionLedger.StatsOf` | position_manager.py:219-230 | The reported counts and total profit are the tally's; with closed records the win rate is wins / closed × 100 and the average is profit per closed record, without them both are 0; for a balanced tally total = open + closed, wins + losses ≤ closed and the win rate lies in [0, 100] |
| `PositionLedger.StatisticsConsistent` | position_manager.py:192-230 | The statistics of any query are balanced, their win rate is a percentage, and their open count matches `get_open_positions` |
| `PositionLedger.PositionManager.constructor` | position_manager.py:14-29 | A missing or unreadable store gives an empty ledger; a loaded one is taken as is |
| `PositionLedger.PositionManager.OpenPosition` | position_manager.py:36-75 | Appends one open record to the symbol's list, creating the list (and its key) when new. Every other list is unchanged. Returns `symbol_stamp` |
| `PositionLedger.PositionManager.ClosePosition` | position_manager.py:77-127 | An unknown symbol changes nothing and returns nothing. Otherwise only the symbol's list changes, to `CloseList`, and the result is `ClosedOf` |
| `PositionLedger.PositionManager.CheckForcedClose` | position_manager.py:129-156 | An unknown symbol changes nothing. Otherwise only the symbol's list changes, by the sweep, and the result is the records it settled |
| `PositionLedger.PositionManager.GetOpenPositions` | position_manager.py:158-180 | The open records of the given symbol, or of every symbol in insertion order |
| `PositionLedger.PositionManager.GetStatistics` | position_manager.py:182-230 | The statistics of the tally over the given symbol, or over every symbol |
| `PositionLedger.Wins` | position_manager.py:211-215 | The closed records with a positive profit, counted one by one; at most the list's length |
| `PositionLedger.Losses` | position_manager.py:211-217 | The closed records with a profit of zero or less, counted one by one; at most the list's length |
| `PositionLedger.OutcomesAppend` | position_manager.py:201-217 | Wins, losses and closed profit of two lists together are the sums of each |
| `PositionLedger.TallyFromOutcomes` | position_manager.py:205-217 | Counting a list's first records adds exactly their wins, losses and closed profit to the tally |
| `PositionLedger.TallyOutcomes` | position_manager.py:201-217 | The tally's wins, losses and profit equal those counted directly over the queried symbols' records |
| `PositionLedger.StatisticsOutcomes` | position_manager.py:201-229 | The reported wins are the closed records with a positive profit, the losses those with zero or less, the total profit their sum, and the win rate wins per closed record in percent |
| `PositionLedger.CloseRecords` | position_manager.py:96-124 | The loop settles and collects exactly what `CloseList` and `ClosedOf` say |
| `PositionLedger.SweepRecords` | position_manager.py:145-155 | The loop, closing aged records by id, produces exactly the sweep |
| `PositionLedger.CollectOpen` | position_manager.py:172-178 | The nested loops collect exactly the open records of the queried symbols |
| `PositionLedger.OpenRecords` | position_manager.py:176-178 | The inner loop collects exactly a list's open records |
| `PositionLedger.CountSymbols` | position_manager.py:201-217 | The outer loop computes exactly the tally over the queried symbols |
| `PositionLedger.CountAll` | position_manager.py:205-217 | The inner loop counts exactly the records of one list |

## Left out

- Network I/O is not modelled: market-data fetching, the ServerChan and other notifiers, and their HTTP calls.
- Logging, chart rendering, the scheduler, the main programs, YAML configuration loading and console printing are not modelled. The backtester's print helpers are among them.
- `Backtester.get_recent_trades` is left out: it filters by a wall-clock cutoff over pandas timestamps.
- JSON persistence is not modelled. Loading is abstracted to an optional `Store` handed to the constructor, and saving is omitted because it changes no ledger state.
- Bit-exact floating point is not modelled. Reals replace IEEE doubles, and pandas NaN is `None` where a rule reads it.
- Bollinger bands are left out (no signal reads them). RSI is taken as an input series to `CalculateIndicators` rather than computed.
- Bars carry no open price or volume: no modelled rule reads them.
- `PositionLedger.PositionManager.OpenPosition`: the two separate clock reads for the id and the entry time are one `now`/`stamp` pair. Ids can collide within one second; the id is an opaque input.
- `PositionLedger.PositionManager.ClosePosition` and `PositionLedger.PositionManager.CheckForcedClose`: one `now` stands for every clock reading of the call. The source reads `datetime.now()` afresh for each settled record's exit time (`position_manager.py:114`) and, in the sweep, again for each record's age test (`position_manager.py:150`). The model uses the same instant for the age test, the exit time and the days held, so a sweep that straddles a day boundary is not modelled.
- `PositionLedger.PositionManager.CheckForcedClose`: requires a usable entry price only on the records the sweep settles, those `close_position` selects by an aged open record's id. An unaged record with a zero price is accepted, as in the source.
- `PositionLedger.SweepClosesAged`: requires distinct non-empty ids. Without them, closing by id also settles an unaged record that shares the id; the sweep itself (`SweepOf`, used by `CheckForcedClose`) models that case as written.
- `PositionLedger.PositionManager.ClosePosition`: requires a non-zero entry price on every record it settles. The source raises a division-by-zero error there, which is not modelled.
- `Backtest.RunBacktest`: requires a non-zero close on every buy row, so neither failure of a zero entry price is modelled. On the sell path the source raises: the signal frame carries a text `signal_type` column (`app/indicators.py:120`), so `iterrows` (`backtest.py:42`) yields mixed-type rows whose `close` is a plain Python float, and the division at `backtest.py:59` raises `ZeroDivisionError`. At the final settlement (`backtest.py:95-97`) the numerator is a numpy value taken from the frame, so the division gives an infinite or NaN return instead, which reals cannot express. The requirement is also broader than the divisions: a buy row met while a position is already held (`backtest.py:47-48`) is never divided by, yet it is excluded too.
- `KdjSignal.RsvAt`: a zero high–low range always gives 50. The source fills only 0/0 (NaN) with 50. A close outside a flat range (a malformed bar) gives ±infinity there, which reals cannot express.
- The returned records in `PositionManager` are values, not references. The source returns the same dictionaries it stores, so a caller mutating them would change the ledger. That aliasing is not modelled.
- Timestamps are the frame's index in the backtester. `Backtest.Sorted` (a non-decreasing index) is assumed only by the excursion-sign lemmas, not by the backtest itself.
- The signal rows selected by `df[df["signal"] != 0]` are modelled by replaying the whole frame and letting zero rows change nothing. This gives the same trades.
