/** The MACD detector: a crossover is a sign change of the histogram at the
    latest bar; the strength averages the histogram's size relative to its
    largest absolute value with the relative gap between the MACD and signal
    lines. */
module MacdSignal {
  import opened Series
  import opened Smoothing
  import opened Detector

  datatype Config = Config(fast: int, slow: int, signal: int)

  function DefaultConfig(): Config {
    Config(12, 26, 9)
  }

  predicate ValidConfig(c: Config) {
    c.fast >= 1 && c.slow >= 1 && c.signal >= 1
  }

  /** The warm-up guard: a non-empty frame of at least `slow` bars. */
  predicate Ready(c: Config, bars: seq<Bar>) {
    |bars| > 0 && |bars| >= c.slow
  }

  /** `calculate_macd` on the closes. */
  function Lines(c: Config, bars: seq<Bar>): (m: MacdLines)
    requires ValidConfig(c)
    ensures |m.macd| == |m.signal| == |m.histogram| == |bars|
  {
    Macd(Closes(bars), c.fast, c.slow, c.signal)
  }

  /** The histogram against zero at the latest bar. */
  function CrossAt(c: Config, bars: seq<Bar>): Cross
    requires ValidConfig(c) && |bars| > 0
  {
    var h := Lines(c, bars).histogram;
    Crossover(Last(h), 0.0, Prev(h), 0.0)
  }

  function AbsAll(s: seq<real>): (a: seq<real>)
    ensures |a| == |s| && forall i :: 0 <= i < |s| ==> a[i] == Abs(s[i])
  {
    seq(|s|, i requires 0 <= i < |s| => Abs(s[i]))
  }

  /** `min(1.0, |h_last| / max|h|)`, or 0 when the histogram is zero throughout.
      The latest value is one of those the maximum is taken over, so the ratio
      never exceeds 1 and the `min` never changes it. */
  function BaseStrength(hist: seq<real>): (r: real)
    requires |hist| > 0
    ensures 0.0 <= r <= 1.0
    ensures MaxOf(AbsAll(hist)) > 0.0 ==> r == Abs(Last(hist)) / MaxOf(AbsAll(hist))
    ensures MaxOf(AbsAll(hist)) == 0.0 ==> r == 0.0
  {
    var top := MaxOf(AbsAll(hist));
    if top > 0.0 then
      assert AbsAll(hist)[|hist| - 1] == Abs(Last(hist));
      UnitRatio(Abs(Last(hist)), top);
      Min(1.0, Abs(Last(hist)) / top)
    else Min(1.0, 0.0)
  }

  /** When the MACD line is not zero, the base strength is averaged with
      `|macd - signal| / |macd|`. That second term is not clamped. */
  function Strength(macd: real, signal: real, hist: seq<real>): (r: real)
    requires |hist| > 0
    ensures r >= 0.0
    ensures macd == 0.0 ==> r == BaseStrength(hist)
    ensures macd != 0.0 ==> r == (BaseStrength(hist) + Abs(macd - signal) / Abs(macd)) / 2.0
  {
    var base := BaseStrength(hist);
    if Abs(macd) > 0.0 then (base + Abs(macd - signal) / Abs(macd)) / 2.0 else base
  }

  /** The strength can exceed 1: a MACD line of 1 with a signal line of -3 adds
      a relative gap of 4. */
  lemma StrengthCanExceedOne()
    ensures Strength(1.0, -3.0, [2.0]) > 1.0
  {
    assert BaseStrength([2.0]) == 1.0;
  }

  function CrossStrength(c: Config, bars: seq<Bar>): (r: real)
    requires ValidConfig(c) && |bars| > 0
    ensures r >= 0.0
  {
    var m := Lines(c, bars);
    Strength(Last(m.macd), Last(m.signal), m.histogram)
  }

  const BullTrend: string := "多头"
  const BearTrend: string := "空头"

  /** `detect_signal`. */
  function Detect(c: Config, bars: seq<Bar>): (s: DetectorSignal)
    requires ValidConfig(c)
    ensures !Ready(c, bars) ==> s == WarmUp()
    ensures s.strength >= 0.0
    ensures Ready(c, bars) ==>
      && (s.direction == Buy <==> Last(Lines(c, bars).histogram) > 0.0 && Prev(Lines(c, bars).histogram) <= 0.0)
      && (s.direction == Sell <==> Last(Lines(c, bars).histogram) < 0.0 && Prev(Lines(c, bars).histogram) >= 0.0)
      && (s.direction != Neutral ==> s.strength == CrossStrength(c, bars))
      && (s.direction == Buy ==> s.kind == BuyType)
      && (s.direction == Sell ==> s.kind == SellType)
    ensures Ready(c, bars) && CrossAt(c, bars) == NoCross ==>
      && s.direction == Neutral
      && s.strength == CrossStrength(c, bars) * 0.5
      && s.kind == "趋势" + (if Last(Lines(c, bars).histogram) > 0.0 then BullTrend else BearTrend)
  {
    if !Ready(c, bars) then WarmUp()
    else
      var m := Lines(c, bars);
      var lm, ls, lh := Last(m.macd), Last(m.signal), Last(m.histogram);
      var price := Last(Closes(bars));
      var strength := CrossStrength(c, bars);
      match CrossAt(c, bars)
      case Up =>
        DetectorSignal(Buy, strength, BuyType,
          map["macd" := Num(lm), "signal" := Num(ls), "histogram" := Num(lh),
              "cross_type" := Text("柱状图上穿"), "price" := Num(price)])
      case Down =>
        DetectorSignal(Sell, strength, SellType,
          map["macd" := Num(lm), "signal" := Num(ls), "histogram" := Num(lh),
              "cross_type" := Text("柱状图下穿"), "price" := Num(price)])
      case NoCross =>
        var trend := if lh > 0.0 then BullTrend else BearTrend;
        DetectorSignal(Neutral, strength * 0.5, "趋势" + trend,
          map["macd" := Num(lm), "signal" := Num(ls), "histogram" := Num(lh),
              "trend" := Text(trend), "price" := Num(price)])
  }

  /** In a flat market the histogram is zero throughout: no crossover, zero
      strength and a bearish trend label, because a zero histogram is not above
      zero. */
  lemma FlatMarketIsQuiet(c: Config, bars: seq<Bar>, price: real)
    requires ValidConfig(c) && Ready(c, bars)
    requires forall i :: 0 <= i < |bars| ==> bars[i].close == price
    ensures Detect(c, bars) == DetectorSignal(Neutral, 0.0, "趋势" + BearTrend,
      map["macd" := Num(0.0), "signal" := Num(0.0), "histogram" := Num(0.0),
          "trend" := Text(BearTrend), "price" := Num(price)])
  {
    var closes := Closes(bars);
    var m := Lines(c, bars);
    MacdFlat(closes, c.fast, c.slow, c.signal, price);
    var a := AbsAll(m.histogram);
    assert a[0] == 0.0;
    assert MaxOf(a) == 0.0;
  }
}
