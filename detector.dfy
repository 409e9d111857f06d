/** What the three single-indicator detectors have in common: the record each
    returns for the latest bar, the result of the warm-up guard, and the
    crossover test between two lines. */
module Detector {

  /** The `signal` field: 1 buy, -1 sell, 0 no tradable signal. */
  datatype Direction = Sell | Neutral | Buy {
    function Value(): int {
      match this
      case Sell => -1
      case Neutral => 0
      case Buy => 1
    }

    /** Buy and sell exchanged. */
    function Flip(): Direction {
      match this
      case Sell => Buy
      case Neutral => Neutral
      case Buy => Sell
    }
  }

  /** A value of the `details` mapping: a number or a label. */
  datatype Field = Num(x: real) | Text(s: string)

  /** One detector's verdict on the latest bar: `signal`, `strength`, `type` and `details`. */
  datatype DetectorSignal = DetectorSignal(direction: Direction, strength: real, kind: string, details: map<string, Field>)

  const BuyType: string := "买入"
  const SellType: string := "卖出"
  const NoneType: string := "无"

  /** What every detector returns for a missing, empty or too short frame. */
  function WarmUp(): DetectorSignal {
    DetectorSignal(Neutral, 0.0, NoneType, map[])
  }

  /** The latest bar's relation between line `a` and line `b`. */
  datatype Cross = Up | Down | NoCross {
    function Flip(): Cross {
      match this
      case Up => Down
      case Down => Up
      case NoCross => NoCross
    }
  }

  /** `a` crosses above `b` when it is above now and was not above before; it
      crosses below when it is below now and was not below before. */
  function Crossover(a: real, b: real, prevA: real, prevB: real): (c: Cross)
    ensures c == Up <==> a > b && prevA <= prevB
    ensures c == Down <==> a < b && prevA >= prevB
  {
    if a > b && prevA <= prevB then Up
    else if a < b && prevA >= prevB then Down
    else NoCross
  }

  /** Exchanging the roles of the two lines turns an upward cross into a
      downward one and back. */
  lemma CrossoverSwap(a: real, b: real, prevA: real, prevB: real)
    ensures Crossover(b, a, prevB, prevA) == Crossover(a, b, prevA, prevB).Flip()
  {
  }
}
