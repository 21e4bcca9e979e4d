/** Values shared by the parts of the engine. */
module Basics {

  /** The optional value, for what the engine writes as "or None". */
  datatype Option<+T> = None | Some(value: T)

  datatype Symbol = Symbol(ticker: string)

  /** Sides are plain text in the engine; text other than the two known sides is carried along. */
  datatype Side = Buy | Sell | Other(text: string)

  function Opposite(side: Side): Side {
    if side == Sell then Buy else Sell
  }

  /** What a strategy asks for: its own name, the symbol, the side and the suggested size. */
  datatype Signal = Signal(strategy: string, symbol: Symbol, side: Side, size: int)
}
