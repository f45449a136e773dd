/** The nouns every other module shares: symbols, signals, orders, fills, accounts and bars. */
module Domain {

  type Symbol = string

  datatype Option<+T> = None | Some(value: T)

  datatype SignalType = BUY | SELL | HOLD

  datatype Signal = Signal(symbol: Symbol, kind: SignalType, strategyName: string)

  datatype Side = Buy | Sell

  /** What an order asks for. Its status is kept by the broker's `Ticket`. */
  datatype Order = Order(symbol: Symbol, side: Side, quantity: real, strategyName: string)

  datatype Fill = Fill(id: int, symbol: Symbol, side: Side, quantity: real, price: real, commission: real,
                       timestamp: int)

  datatype Account = Account(timestamp: int, cash: real, positionsValue: real) {
    function Equity(): real {
      cash + positionsValue
    }
  }

  datatype Bar = Bar(date: int, open: real, high: real, low: real, close: real, volume: int)

  /** The slack every quantity and cash comparison of the source allows. */
  const EPSILON: real := 0.000000001

  const STOP_LOSS_TAG := "risk:stop_loss"

  const TAKE_PROFIT_TAG := "risk:take_profit"

  predicate IsRiskTag(tag: string) {
    tag == STOP_LOSS_TAG || tag == TAKE_PROFIT_TAG
  }

  function Shares(n: int): real {
    n as real
  }

  ghost predicate Whole(x: real) {
    exists n: int :: x == Shares(n)
  }
}
