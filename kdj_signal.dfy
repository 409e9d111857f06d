/** The KDJ detector: the stochastic RSV of the close within the recent
    high-low range, smoothed into K and D, with J = 3K - 2D. A crossover of K
    over D is a buy, K under D a sell; a crossover in its matching extreme zone
    gets a bonus; without a crossover the detector only reports the zone. */
module KdjSignal {
  import opened Series
  import opened Smoothing
  import opened Detector

  datatype Config = Config(period: int, kPeriod: int, dPeriod: int)

  function DefaultConfig(): Config {
    Config(9, 3, 3)
  }

  /** A rolling window needs at least one bar, and `alpha = 1/n` must lie in (0, 1]. */
  predicate ValidConfig(c: Config) {
    c.period >= 1 && c.kPeriod >= 1 && c.dPeriod >= 1
  }

  /** The warm-up guard: a non-empty frame of at least `period` bars. */
  predicate Ready(c: Config, bars: seq<Bar>) {
    |bars| > 0 && |bars| >= c.period
  }

  /** RSV at bar `i`: where the close lies in the lowest-low to highest-high
      range of the last `period` bars, in percent. Before the window is full the
      rolling extremes are NaN, and so is 0/0 when the range is flat; both are
      filled with 50. */
  function RsvAt(bars: seq<Bar>, period: int, i: int): real
    requires period >= 1 && 0 <= i < |bars|
  {
    if i < period - 1 then 50.0
    else
      var w := bars[i - period + 1 .. i + 1];
      Percent(bars[i].close, MinOf(Lows(w)), MaxOf(Highs(w)))
  }

  /** Where `x` lies from `lo` to `hi`, in percent; 0/0 is NaN in the source
      and filled with 50. */
  function Percent(x: real, lo: real, hi: real): real {
    if hi - lo == 0.0 then 50.0 else (x - lo) / (hi - lo) * 100.0
  }

  function Rsv(bars: seq<Bar>, period: int): (r: seq<real>)
    requires period >= 1
    ensures |r| == |bars| && forall i :: 0 <= i < |bars| ==> r[i] == RsvAt(bars, period, i)
  {
    seq(|bars|, i requires 0 <= i < |bars| => RsvAt(bars, period, i))
  }

  /** For bars whose close lies between their low and high, RSV is a
      percentage. */
  lemma RsvInRange(bars: seq<Bar>, period: int, i: int)
    requires period >= 1 && 0 <= i < |bars| && AllWellFormed(bars)
    ensures 0.0 <= RsvAt(bars, period, i) <= 100.0
  {
    if i >= period - 1 {
      var w := bars[i - period + 1 .. i + 1];
      assert RsvAt(bars, period, i) == Percent(bars[i].close, MinOf(Lows(w)), MaxOf(Highs(w)));
      WindowRange(w);
      PercentInRange(bars[i].close, MinOf(Lows(w)), MaxOf(Highs(w)));
    }
  }

  /** A value between two bounds sits between 0 and 100 percent of the way
      from the lower to the upper one. */
  lemma PercentInRange(x: real, lo: real, hi: real)
    requires lo <= x <= hi
    ensures 0.0 <= Percent(x, lo, hi) <= 100.0
  {
    if hi - lo != 0.0 {
      UnitRatio(x - lo, hi - lo);
    }
  }

  /** The close of a well-formed last bar lies between the window's lowest low
      and highest high. */
  lemma WindowRange(w: seq<Bar>)
    requires |w| > 0 && WellFormed(w[|w| - 1])
    ensures MinOf(Lows(w)) <= w[|w| - 1].close <= MaxOf(Highs(w))
  {
    var last := |w| - 1;
    assert Lows(w)[last] == w[last].low && Highs(w)[last] == w[last].high;
    assert WellFormed(w[last]);
  }

  datatype KdjLines = KdjLines(k: seq<real>, d: seq<real>, j: seq<real>)

  /** `calculate_kdj`: K smooths RSV with alpha 1/kPeriod, D smooths K with
      alpha 1/dPeriod, and J = 3K - 2D. */
  function Lines(c: Config, bars: seq<Bar>): (l: KdjLines)
    requires ValidConfig(c)
    ensures |l.k| == |l.d| == |l.j| == |bars|
    ensures l.k == Ema(Rsv(bars, c.period), 1.0 / c.kPeriod as real)
    ensures l.d == Ema(l.k, 1.0 / c.dPeriod as real)
    ensures forall i :: 0 <= i < |bars| ==> l.j[i] == 3.0 * l.k[i] - 2.0 * l.d[i]
  {
    var k := Ema(Rsv(bars, c.period), 1.0 / c.kPeriod as real);
    var d := Ema(k, 1.0 / c.dPeriod as real);
    KdjLines(k, d, seq(|bars|, i requires 0 <= i < |bars| => 3.0 * k[i] - 2.0 * d[i]))
  }

  /** K and D stay within [0, 100] for bars whose close lies between their low
      and high: they are running averages of RSV. */
  lemma KdInRange(c: Config, bars: seq<Bar>)
    requires ValidConfig(c) && AllWellFormed(bars)
    ensures forall i :: 0 <= i < |bars| ==>
      0.0 <= Lines(c, bars).k[i] <= 100.0 && 0.0 <= Lines(c, bars).d[i] <= 100.0
  {
    var rsv := Rsv(bars, c.period);
    forall i | 0 <= i < |bars| ensures 0.0 <= rsv[i] <= 100.0 {
      RsvInRange(bars, c.period, i);
    }
    var k := Ema(rsv, 1.0 / c.kPeriod as real);
    EmaBounded(rsv, 1.0 / c.kPeriod as real, 0.0, 100.0);
    EmaBounded(k, 1.0 / c.dPeriod as real, 0.0, 100.0);
  }

  function CrossAt(c: Config, bars: seq<Bar>): Cross
    requires ValidConfig(c) && |bars| > 0
  {
    var l := Lines(c, bars);
    Crossover(Last(l.k), Last(l.d), Prev(l.k), Prev(l.d))
  }

  /** `min(1.0, |K - D| / 50)`. */
  function BaseStrength(k: real, d: real): (r: real)
    ensures 0.0 <= r <= 1.0
    ensures Abs(k - d) < 50.0 ==> r == Abs(k - d) / 50.0
  {
    Min(1.0, Abs(k - d) / 50.0)
  }

  predicate Oversold(k: real, d: real) {
    k < 20.0 && d < 20.0
  }

  predicate Overbought(k: real, d: real) {
    k > 80.0 && d > 80.0
  }

  /** The zone label reported when there is no crossover. */
  function Zone(k: real, d: real): string {
    if Oversold(k, d) then "超卖" else if Overbought(k, d) then "超买" else "中性"
  }

  /** `detect_signal`. */
  function Detect(c: Config, bars: seq<Bar>): (s: DetectorSignal)
    requires ValidConfig(c)
    ensures !Ready(c, bars) ==> s == WarmUp()
    ensures 0.0 <= s.strength <= 1.0
    ensures Ready(c, bars) ==>
      var l := Lines(c, bars);
      var base := BaseStrength(Last(l.k), Last(l.d));
      && (s.direction == Buy <==> CrossAt(c, bars) == Up)
      && (s.direction == Sell <==> CrossAt(c, bars) == Down)
      && (s.direction == Buy ==>
            s.kind == BuyType &&
            s.strength == if Oversold(Last(l.k), Last(l.d)) then Min(1.0, base + 0.3) else base)
      && (s.direction == Sell ==>
            s.kind == SellType &&
            s.strength == if Overbought(Last(l.k), Last(l.d)) then Min(1.0, base + 0.3) else base)
      && (s.direction == Neutral ==>
            s.strength == base * 0.3 && s.kind == "位置" + Zone(Last(l.k), Last(l.d)))
  {
    if !Ready(c, bars) then WarmUp()
    else
      var l := Lines(c, bars);
      var lk, ld, lj := Last(l.k), Last(l.d), Last(l.j);
      var price := Last(Closes(bars));
      var cross := CrossAt(c, bars);
      var base := BaseStrength(lk, ld);
      if cross == Up && Oversold(lk, ld) then
        DetectorSignal(Buy, Min(1.0, base + 0.3), BuyType,
          map["k" := Num(lk), "d" := Num(ld), "j" := Num(lj), "cross_type" := Text("金叉"),
              "position" := Text("超卖区域"), "price" := Num(price)])
      else if cross == Down && Overbought(lk, ld) then
        DetectorSignal(Sell, Min(1.0, base + 0.3), SellType,
          map["k" := Num(lk), "d" := Num(ld), "j" := Num(lj), "cross_type" := Text("死叉"),
              "position" := Text("超买区域"), "price" := Num(price)])
      else if cross == Up then
        DetectorSignal(Buy, base, BuyType,
          map["k" := Num(lk), "d" := Num(ld), "j" := Num(lj), "cross_type" := Text("金叉"), "price" := Num(price)])
      else if cross == Down then
        DetectorSignal(Sell, base, SellType,
          map["k" := Num(lk), "d" := Num(ld), "j" := Num(lj), "cross_type" := Text("死叉"), "price" := Num(price)])
      else
        var zone := Zone(lk, ld);
        DetectorSignal(Neutral, base * 0.3, "位置" + zone,
          map["k" := Num(lk), "d" := Num(ld), "j" := Num(lj), "position" := Text(zone), "price" := Num(price)])
  }

  /** The two extreme zones exclude each other, and a signal from the zone
      reading alone is never tradable. */
  lemma ZonesExclusive(k: real, d: real)
    ensures !(Oversold(k, d) && Overbought(k, d))
    ensures Zone(k, d) == "超卖" <==> Oversold(k, d)
    ensures Zone(k, d) == "超买" <==> Overbought(k, d)
  {
  }

  /** The zone bonus only ever raises a crossover's strength, and never past 1. */
  lemma BonusRaisesStrength(k: real, d: real)
    ensures BaseStrength(k, d) <= Min(1.0, BaseStrength(k, d) + 0.3) <= 1.0
    ensures BaseStrength(k, d) < 0.7 ==> Min(1.0, BaseStrength(k, d) + 0.3) == BaseStrength(k, d) + 0.3
  {
  }
}
