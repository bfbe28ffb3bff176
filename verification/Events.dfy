/** The event vocabulary of the Python simulator: costs.py, events.py and config.py. */
module Events {
  import opened RealMath

  type Timestamp = int

  /** A validated index: every bar is later than the one before it. */
  ghost predicate Increasing(index: seq<Timestamp>) {
    forall i, j :: 0 <= i < j < |index| ==> index[i] < index[j]
  }

  const BPS: real := 10000.0

  function Notional(quantity: real, price: real): real {
    quantity * price
  }

  datatype Side = Buy | Sell {
    function Sign(): int {
      if this == Buy then 1 else -1
    }
  }

  datatype CostModel = CostModel(commissionBps: real, commissionMin: real, slippageBps: real, spreadBps: real) {

    /** What __post_init__ checks. */
    predicate Valid() {
      commissionBps >= 0.0 && commissionMin >= 0.0 && slippageBps >= 0.0 && spreadBps >= 0.0
    }

    /** The adverse fraction paid on either side: slippage plus half the spread. */
    function Penalty(): real {
      (slippageBps + spreadBps / 2.0) / BPS
    }

    function Rate(): real {
      commissionBps / BPS
    }

    function FillPrice(reference: real, side: Side): real {
      reference * (1.0 + side.Sign() as real * Penalty())
    }

    function Commission(notional: real): real {
      Max(commissionMin, Abs(notional) * commissionBps / BPS)
    }
  }

  datatype ExecutionModel = NextBarOpen | NextBarClose {
    function PriceOf(market: MarketEvent): real {
      if this == NextBarOpen then market.open else market.close
    }
  }

  datatype Config = Config(
    initialCash: real,
    costs: CostModel,
    executionModel: ExecutionModel,
    allowShort: bool,
    liquidateAtEnd: bool)

  datatype Bar = Bar(open: real, high: real, low: real, close: real, volume: real)

  datatype MarketEvent = MarketEvent(
    timestamp: Timestamp, symbol: string, open: real, high: real, low: real, close: real, volume: real)

  datatype OrderEvent = OrderEvent(
    decisionTimestamp: Timestamp, timestamp: Timestamp, symbol: string, side: Side, quantity: real, reason: string)

  /** __post_init__ refuses an order that is not for a positive quantity. */
  type Order = o: OrderEvent | o.quantity > 0.0 witness OrderEvent(0, 0, "", Buy, 1.0, "")

  datatype FillEvent = FillEvent(
    timestamp: Timestamp, symbol: string, side: Side, quantity: real,
    referencePrice: real, fillPrice: real, commission: real, reason: string)
  {
    function SignedQuantity(): real {
      side.Sign() as real * quantity
    }

    function SlippageCost(): real {
      Abs(fillPrice - referencePrice) * quantity
    }

    function TotalCost(): real {
      commission + SlippageCost()
    }

    function CashDelta(): real {
      -(side.Sign() as real) * Notional(quantity, fillPrice) - commission
    }
  }

  datatype PositionEvent = PositionEvent(
    timestamp: Timestamp, symbol: string, quantity: real, averagePrice: real,
    cash: real, marketValue: real, unrealizedPnl: real, realizedPnl: real)

  /** A fill the cash constraint interfered with, as facts rather than as text. */
  datatype Warning =
    | SkippedBuy(timestamp: Timestamp, symbol: string, quantity: real, fillPrice: real)
    | ReducedBuy(timestamp: Timestamp, symbol: string, quantity: real, affordable: real)
}
