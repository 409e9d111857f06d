/** The consensus of the three detectors: a majority vote over their
    directions, the mean of their strengths, a level from two thresholds, and
    the level gate that decides whether a signal is worth a notification. */
module SignalManager {
  import opened Series
  import opened Detector
  import EmaSignal
  import MacdSignal
  import KdjSignal

  datatype Config = Config(
    ema: EmaSignal.Config,
    macd: MacdSignal.Config,
    kdj: KdjSignal.Config,
    strongThreshold: real,
    mediumThreshold: real)

  /** The defaults used when the configuration leaves a value out. */
  function DefaultConfig(): Config {
    Config(EmaSignal.DefaultConfig(), MacdSignal.DefaultConfig(), KdjSignal.DefaultConfig(), 0.8, 0.6)
  }

  predicate ValidConfig(c: Config) {
    EmaSignal.ValidConfig(c.ema) && MacdSignal.ValidConfig(c.macd) && KdjSignal.ValidConfig(c.kdj)
  }

  datatype Consensus = Consensus(buyCount: nat, sellCount: nat, totalIndicators: nat)

  /** The per-detector breakdown; empty for the empty signal. */
  datatype Breakdown = NoIndicators | Indicators(ema: DetectorSignal, macd: DetectorSignal, kdj: DetectorSignal)

  /** The result of `analyze`. */
  datatype FinalSignal = FinalSignal(
    direction: Direction,
    strength: real,
    level: string,
    kind: string,
    indicators: Breakdown,
    timestamp: int,
    price: real,
    consensus: Consensus)

  /** `_empty_signal`; `now` stands for the wall-clock reading. It is a
      neutral, zero-strength signal with no votes at level "none". */
  function EmptySignal(now: int): (r: FinalSignal)
    ensures r.direction == Neutral && r.strength == 0.0 && r.level == "none" && r.kind == NoneType
    ensures r.consensus == Consensus(0, 0, 0) && r.timestamp == now
  {
    FinalSignal(Neutral, 0.0, "none", NoneType, NoIndicators, now, 0.0, Consensus(0, 0, 0))
  }

  /** The number of detector outputs voting in direction `d`. */
  function CountVotes(votes: seq<DetectorSignal>, d: Direction): (n: nat)
    ensures n <= |votes|
  {
    if |votes| == 0 then 0
    else CountVotes(votes[..|votes| - 1], d) + (if votes[|votes| - 1].direction == d then 1 else 0)
  }

  /** A detector votes buy or sell, never both, so the two counts together do
      not exceed the number of detectors. */
  lemma {:induction false} VotesDisjoint(votes: seq<DetectorSignal>)
    ensures CountVotes(votes, Buy) + CountVotes(votes, Sell) <= |votes|
  {
    if |votes| > 0 {
      VotesDisjoint(votes[..|votes| - 1]);
    }
  }

  /** Flipping every vote exchanges the buy and sell counts. */
  lemma {:induction false} CountFlipped(votes: seq<DetectorSignal>, d: Direction)
    ensures CountVotes(Flipped(votes), d.Flip()) == CountVotes(votes, d)
  {
    if |votes| > 0 {
      assert Flipped(votes)[..|votes| - 1] == Flipped(votes[..|votes| - 1]);
      CountFlipped(votes[..|votes| - 1], d);
    }
  }

  function FlipSignal(s: DetectorSignal): DetectorSignal {
    s.(direction := s.direction.Flip())
  }

  function Flipped(votes: seq<DetectorSignal>): (f: seq<DetectorSignal>)
    ensures |f| == |votes| && forall i :: 0 <= i < |votes| ==> f[i] == FlipSignal(votes[i])
  {
    seq(|votes|, i requires 0 <= i < |votes| => FlipSignal(votes[i]))
  }

  /** The vote: a majority of two decides; a single vote with no opposing vote
      gives a weak signal; anything else, including one buy against one sell,
      gives no signal. */
  function Decide(buys: nat, sells: nat): (r: (Direction, string))
    requires buys + sells <= 3
    ensures r.0 == Buy <==> buys >= 2 || (buys == 1 && sells == 0)
    ensures r.0 == Sell <==> sells >= 2 || (sells == 1 && buys == 0)
    ensures r.1 == "买入（弱）" <==> buys == 1 && sells == 0
    ensures r.1 == "卖出（弱）" <==> sells == 1 && buys == 0
    ensures r.0 == Neutral <==> r.1 == NoneType
  {
    if buys >= 2 then (Buy, BuyType)
    else if sells >= 2 then (Sell, SellType)
    else if buys == 1 && sells == 0 then (Buy, "买入（弱）")
    else if sells == 1 && buys == 0 then (Sell, "卖出（弱）")
    else (Neutral, NoneType)
  }

  /** Exchanging the buy and sell counts negates the vote. */
  lemma DecideSymmetric(buys: nat, sells: nat)
    requires buys + sells <= 3
    ensures Decide(sells, buys).0 == Decide(buys, sells).0.Flip()
  {
  }

  /** The level: "none" exactly when there is no signal; otherwise the first
      threshold the strength reaches, strongest first. */
  function Level(d: Direction, strength: real, strong: real, medium: real): (level: string)
    ensures level == "none" <==> d == Neutral
    ensures d != Neutral ==>
      level == (if strength >= strong then "strong" else if strength >= medium then "medium" else "weak")
  {
    if d != Neutral then
      if strength >= strong then "strong" else if strength >= medium then "medium" else "weak"
    else "none"
  }

  /** The consensus over three detector outputs for the latest bar at `price`. */
  function Combine(c: Config, ema: DetectorSignal, macd: DetectorSignal, kdj: DetectorSignal,
                   price: real, now: int): (r: FinalSignal)
    ensures r.consensus.buyCount + r.consensus.sellCount <= 3 && r.consensus.totalIndicators == 3
    ensures r.consensus.buyCount == CountVotes([ema, macd, kdj], Buy)
    ensures r.consensus.sellCount == CountVotes([ema, macd, kdj], Sell)
    ensures r.strength == (ema.strength + macd.strength + kdj.strength) / 3.0
    ensures r.direction == Decide(r.consensus.buyCount, r.consensus.sellCount).0
    ensures r.level == "none" <==> r.direction == Neutral
    ensures r.level == Level(r.direction, r.strength, c.strongThreshold, c.mediumThreshold)
    ensures r.kind == Decide(r.consensus.buyCount, r.consensus.sellCount).1
    ensures r.indicators == Indicators(ema, macd, kdj) && r.price == price && r.timestamp == now
  {
    var votes := [ema, macd, kdj];
    var buys, sells := CountVotes(votes, Buy), CountVotes(votes, Sell);
    VotesDisjoint(votes);
    var mean := (ema.strength + macd.strength + kdj.strength) / 3.0;
    var (d, kind) := Decide(buys, sells);
    FinalSignal(d, mean, Level(d, mean, c.strongThreshold, c.mediumThreshold), kind,
      Indicators(ema, macd, kdj), now, price, Consensus(buys, sells, |votes|))
  }

  /** Exchanging buy and sell in every detector output negates the consensus
      and leaves strength and level alone. */
  lemma CombineSymmetric(c: Config, ema: DetectorSignal, macd: DetectorSignal, kdj: DetectorSignal,
                         price: real, now: int)
    ensures Combine(c, FlipSignal(ema), FlipSignal(macd), FlipSignal(kdj), price, now).direction
         == Combine(c, ema, macd, kdj, price, now).direction.Flip()
    ensures Combine(c, FlipSignal(ema), FlipSignal(macd), FlipSignal(kdj), price, now).level
         == Combine(c, ema, macd, kdj, price, now).level
  {
    var votes := [ema, macd, kdj];
    assert Flipped(votes) == [FlipSignal(ema), FlipSignal(macd), FlipSignal(kdj)];
    CountFlipped(votes, Buy);
    CountFlipped(votes, Sell);
    VotesDisjoint(votes);
  }

  /** `analyze`: the empty signal for an empty frame, otherwise the consensus
      of the three detectors at the latest close. */
  function Analyze(c: Config, bars: seq<Bar>, now: int): (r: FinalSignal)
    requires ValidConfig(c)
    ensures |bars| == 0 ==>
      r.direction == Neutral && r.strength == 0.0 && r.level == "none" && r.kind == NoneType &&
      r.price == 0.0 && r.consensus == Consensus(0, 0, 0)
    ensures |bars| > 0 ==>
      r == Combine(c, EmaSignal.Detect(c.ema, bars), MacdSignal.Detect(c.macd, bars),
                   KdjSignal.Detect(c.kdj, bars), Last(Closes(bars)), now)
    ensures r.level == "none" <==> r.direction == Neutral
  {
    if |bars| == 0 then EmptySignal(now)
    else
      Combine(c, EmaSignal.Detect(c.ema, bars), MacdSignal.Detect(c.macd, bars),
              KdjSignal.Detect(c.kdj, bars), Last(Closes(bars)), now)
  }

  /** Frames too short for every detector's warm-up carry no signal: all three
      detectors abstain. */
  lemma ShortFrameIsQuiet(c: Config, bars: seq<Bar>, now: int)
    requires ValidConfig(c) && |bars| > 0
    requires |bars| < c.ema.slowPeriod && |bars| < c.macd.slow && |bars| < c.kdj.period
    ensures Analyze(c, bars, now).direction == Neutral && Analyze(c, bars, now).strength == 0.0
  {
    var w := WarmUp();
    assert [w, w, w][..2] == [w, w] && [w, w][..1] == [w] && [w][..0] == [];
    assert CountVotes([w], Buy) == 0 && CountVotes([w], Sell) == 0;
    assert CountVotes([w, w], Buy) == 0 && CountVotes([w, w], Sell) == 0;
    assert CountVotes([w, w, w], Buy) == 0 && CountVotes([w, w, w], Sell) == 0;
  }

  /** The rank of a level name; names outside the table get `fallback`. */
  function LevelRank(level: string, fallback: int): (r: int)
    ensures level == "none" ==> r == 0
    ensures level == "weak" ==> r == 1
    ensures level == "medium" ==> r == 2
    ensures level == "strong" ==> r == 3
    ensures level !in {"none", "weak", "medium", "strong"} ==> r == fallback
  {
    if level == "none" then 0
    else if level == "weak" then 1
    else if level == "medium" then 2
    else if level == "strong" then 3
    else fallback
  }

  /** `should_notify`: a signal is sent when it has a direction and its level
      ranks at least as high as `minLevel` (an unknown level ranks 0, an unknown
      minimum ranks as "weak"). */
  function ShouldNotify(r: FinalSignal, minLevel: string): (b: bool)
    ensures r.direction == Neutral ==> !b
    ensures b <==> r.direction != Neutral && LevelRank(r.level, 0) >= LevelRank(minLevel, 1)
  {
    if r.direction == Neutral then false
    else LevelRank(r.level, 0) >= LevelRank(minLevel, 1)
  }

  /** With the default minimum level "medium", a consensus is sent exactly when
      it has a direction and its mean strength reaches the medium threshold
      (given that the thresholds are ordered). */
  lemma NotifyIffMediumStrength(c: Config, ema: DetectorSignal, macd: DetectorSignal, kdj: DetectorSignal,
                                price: real, now: int)
    requires c.mediumThreshold <= c.strongThreshold
    ensures var r := Combine(c, ema, macd, kdj, price, now);
      ShouldNotify(r, "medium") <==> r.direction != Neutral && r.strength >= c.mediumThreshold
  {
  }

  /** Raising the minimum level only ever suppresses notifications. */
  lemma NotifyMonotone(r: FinalSignal, lower: string, higher: string)
    requires LevelRank(lower, 1) <= LevelRank(higher, 1)
    ensures ShouldNotify(r, higher) ==> ShouldNotify(r, lower)
  {
  }
}
