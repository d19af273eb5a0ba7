/** The values exchanged between the bot's components. */
module Domain {
  datatype Option<+T> = None | Some(value: T)

  /** Nanoseconds since Go's zero time (1 January of year 1, UTC); 0 is the zero time itself. */
  type Time = int
  type Duration = int

  const SECOND: Duration := 1_000_000_000
  const MINUTE: Duration := 60 * SECOND
  const DAY: Duration := 1440 * MINUTE

  datatype Venue = Spot | Margin
  datatype Side = Buy | Sell

  datatype Book = Book(bid: real, ask: real, bidQty: real, askQty: real, depthQuote: real, updatedAt: Time) {
    predicate Valid() {
      bid > 0.0 && ask > bid && bidQty > 0.0 && askQty > 0.0 && updatedAt != 0
    }

    function Mid(): (m: real)
      ensures Valid() ==> bid < m < ask
    {
      if Valid() then (bid + ask) / 2.0 else 0.0
    }
  }

  /** isStop: the exchange's order type contains "STOP". A sell has a negative remaining amount. */
  datatype OpenOrder = OpenOrder(
    id: int, gid: int, venue: Venue, isStop: bool, remaining: real, price: real, createdAt: Time)

  datatype Account = Account(
    equity: real, spot: real, margin: real, marginBasePrice: real,
    openOrders: seq<OpenOrder>, synthetic: bool, updatedAt: Time)
  {
    function Net(): real {
      spot + margin
    }
  }

  /** What the software stop remembers about the held position; quantity is negative for a short. */
  datatype Position = Position(
    quantity: real, averageEntry: real, initialStopFraction: real, stopPrice: real, bestPrice: real,
    pendingStopFraction: real, openedAt: Time, updatedAt: Time, stopOrderId: int, entry: Option<EntryContext>)

  datatype Regime = NoTrade | Transition | Range | Trend | Dislocation

  /** The market reading recorded when an opening order is sent. */
  datatype EntryContext = EntryContext(regime: Regime, basisZ: real, trend: real)

  const NO_POSITION := Position(0.0, 0.0, 0.0, 0.0, 0.0, 0.0, 0, 0, 0, None)

  /** The strategy's wish: a signed exposure as a multiple of equity, and whether entries are off. */
  datatype Signal = Signal(desiredExposure: real, noNewEntries: bool)

  datatype FundingRate = FundingRate(valid: bool, dailyRate: real, updatedAt: Time)

  datatype PublicTrade = PublicTrade(time: Time, amount: real, price: real)

  datatype Estimate = FairValue(valid: bool, price: real, bid: real, ask: real, confidence: real, uncertaintyBps: real)

  /** An estimate is only called valid with a positive bid and an ask that is no smaller. */
  type FairValue = f: Estimate | f.valid ==> 0.0 < f.bid <= f.ask witness FairValue(false, 0.0, 0.0, 0.0, 0.0, 0.0)

  datatype Target = Target(
    exposure: real, notional: real, quantity: real, stopDistance: real, stopPrice: real,
    riskBudget: real, actualStopRisk: real)

  const NO_TARGET := Target(0.0, 0.0, 0.0, 0.0, 0.0, 0.0, 0.0)

  datatype Intent = Intent(
    venue: Venue, side: Side, isStop: bool, amount: real, quantity: real, limitPrice: real,
    stopDistance: real, postOnly: bool, closeOnly: bool, protective: bool, gid: int)

  /** A spot buy, or a margin sell that is not close-only, can enlarge the position. */
  predicate IsOpening(i: Intent) {
    (i.venue == Spot && i.side == Buy) || (i.venue == Margin && i.side == Sell && !i.closeOnly)
  }

  datatype Idle =
    | BookInvalid | WorkingOrder | AlreadyFlat | BelowMinimum | WithinTolerance | StopActive
    | StopBelowMinimum | NotPlanned

  /** One tick's decision: nothing, one batch of cancellations, or one order. */
  datatype Plan = NoAction(why: Idle) | Cancel(ids: seq<int>) | Submit(intent: Intent)

  predicate OpeningPlan(p: Plan) {
    p.Submit? && IsOpening(p.intent)
  }
}
