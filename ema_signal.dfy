/** The EMA detector: a fast and a slow exponential average of the close; a buy
    when the fast one crosses above the slow one at the latest bar, a sell when
    it crosses below, otherwise a half-strength trend reading. */
module EmaSignal {
  import opened Series
  import opened Smoothing
  import opened Detector

  datatype Config = Config(fastPeriod: int, slowPeriod: int)

  function DefaultConfig(): Config {
    Config(12, 26)
  }

  /** pandas rejects a span below 1. */
  predicate ValidConfig(c: Config) {
    c.fastPeriod >= 1 && c.slowPeriod >= 1
  }

  /** The warm-up guard: the frame must be non-empty and hold at least
      `slowPeriod` bars. */
  predicate Ready(c: Config, bars: seq<Bar>) {
    |bars| > 0 && |bars| >= c.slowPeriod
  }

  function FastLine(c: Config, bars: seq<Bar>): (f: seq<real>)
    requires ValidConfig(c)
    ensures |f| == |bars|
  {
    EmaSpan(Closes(bars), c.fastPeriod)
  }

  function SlowLine(c: Config, bars: seq<Bar>): (s: seq<real>)
    requires ValidConfig(c)
    ensures |s| == |bars|
  {
    EmaSpan(Closes(bars), c.slowPeriod)
  }

  /** The crossover of the fast line over the slow line at the latest bar. */
  function CrossAt(c: Config, bars: seq<Bar>): Cross
    requires ValidConfig(c) && |bars| > 0
  {
    var f, s := FastLine(c, bars), SlowLine(c, bars);
    Crossover(Last(f), Last(s), Prev(f), Prev(s))
  }

  /** The gap between the averages relative to the slow one; 0 when the slow
      average is not positive. */
  function Gap(fast: real, slow: real): (g: real)
    ensures g >= 0.0
    ensures slow <= 0.0 ==> g == 0.0
  {
    if slow > 0.0 then Abs(fast - slow) / slow else 0.0
  }

  /** The last step of the fast average relative to the latest close; 0 when the
      close is not positive. `None` is pandas' NaN: `diff()` of a one-bar
      series has no last step. */
  function Slope(fast: seq<real>, close: real): (t: Option<real>)
    requires |fast| > 0
    ensures t.Some? ==> t.value >= 0.0
    ensures t.None? <==> close > 0.0 && |fast| == 1
  {
    if close > 0.0 then
      if |fast| > 1 then Some(Abs(fast[|fast| - 1] - fast[|fast| - 2]) / close) else None
    else Some(0.0)
  }

  /** `min(1.0, gap * 10 + slope * 100)`. A NaN slope makes the sum NaN, and
      Python's `min(1.0, nan)` is 1.0. */
  function CombinedStrength(gap: real, slope: Option<real>): (r: real)
    requires gap >= 0.0 && (slope.Some? ==> slope.value >= 0.0)
    ensures 0.0 <= r <= 1.0
    ensures slope.Some? && gap * 10.0 + slope.value * 100.0 < 1.0 ==> r == gap * 10.0 + slope.value * 100.0
  {
    match slope
    case None => 1.0
    case Some(t) => Min(1.0, gap * 10.0 + t * 100.0)
  }

  /** The strength of a crossover at the latest bar. */
  function CrossStrength(c: Config, bars: seq<Bar>): (r: real)
    requires ValidConfig(c) && |bars| > 0
    ensures 0.0 <= r <= 1.0
  {
    var f, s := FastLine(c, bars), SlowLine(c, bars);
    CombinedStrength(Gap(Last(f), Last(s)), Slope(f, Last(Closes(bars))))
  }

  const BullTrend: string := "多头"
  const BearTrend: string := "空头"

  /** `detect_signal`. */
  function Detect(c: Config, bars: seq<Bar>): (s: DetectorSignal)
    requires ValidConfig(c)
    ensures !Ready(c, bars) ==> s == WarmUp()
    ensures 0.0 <= s.strength <= 1.0
    ensures Ready(c, bars) ==>
      && (s.direction == Buy <==> CrossAt(c, bars) == Up)
      && (s.direction == Sell <==> CrossAt(c, bars) == Down)
      && (s.direction != Neutral ==> s.strength == CrossStrength(c, bars))
      && (s.direction == Buy ==> s.kind == BuyType)
      && (s.direction == Sell ==> s.kind == SellType)
    ensures Ready(c, bars) && CrossAt(c, bars) == NoCross ==>
      && s.direction == Neutral
      && s.strength == CrossStrength(c, bars) * 0.5
      && s.kind == "趋势" + (if Last(FastLine(c, bars)) > Last(SlowLine(c, bars)) then BullTrend else BearTrend)
  {
    if !Ready(c, bars) then WarmUp()
    else
      var f, sl := FastLine(c, bars), SlowLine(c, bars);
      var price := Last(Closes(bars));
      var strength := CrossStrength(c, bars);
      match CrossAt(c, bars)
      case Up =>
        DetectorSignal(Buy, strength, BuyType,
          map["ema_fast" := Num(Last(f)), "ema_slow" := Num(Last(sl)), "cross_type" := Text("上穿"), "price" := Num(price)])
      case Down =>
        DetectorSignal(Sell, strength, SellType,
          map["ema_fast" := Num(Last(f)), "ema_slow" := Num(Last(sl)), "cross_type" := Text("下穿"), "price" := Num(price)])
      case NoCross =>
        var trend := if Last(f) > Last(sl) then BullTrend else BearTrend;
        DetectorSignal(Neutral, strength * 0.5, "趋势" + trend,
          map["ema_fast" := Num(Last(f)), "ema_slow" := Num(Last(sl)), "trend" := Text(trend), "price" := Num(price)])
  }

  /** A crossover and its mirror image never happen at the same bar, and
      exchanging the fast and slow lines exchanges buy and sell. */
  lemma CrossDirectionsExclusive(c: Config, bars: seq<Bar>)
    requires ValidConfig(c) && Ready(c, bars)
    ensures !(Detect(c, bars).direction == Buy && Detect(c, bars).direction == Sell)
    ensures Detect(c, bars).direction == Buy <==>
      Crossover(Last(SlowLine(c, bars)), Last(FastLine(c, bars)), Prev(SlowLine(c, bars)), Prev(FastLine(c, bars))) == Down
  {
    var f, s := FastLine(c, bars), SlowLine(c, bars);
    CrossoverSwap(Last(f), Last(s), Prev(f), Prev(s));
  }
}
