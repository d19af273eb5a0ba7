/** What the exchange adapter's guard lets through: both what it accepts and what it refuses. */
module GuardFacts {
  import opened Numbers
  import opened Sequences
  import opened Domain
  import opened Planner
  import opened OrderGuard
  import Protocol

  /** The snapshot is dated and young enough. */
  predicate Current(g: GuardConfig, a: Account, now: Time) {
    a.updatedAt != 0 && now - a.updatedAt <= g.accountMaxAge
  }

  /** Sales and closes stay within a step of what is held, and a venue is only opened while the other is flat. */
  predicate FitsHoldings(cfg: Config, a: Account, i: Intent) {
    if i.venue == Spot then
      if i.side == Sell then Abs(i.amount) <= a.spot + cfg.quantityStep else a.margin >= -cfg.tolerance
    else if i.side == Buy then i.closeOnly && Abs(i.amount) <= Max(0.0, -a.margin) + cfg.quantityStep
    else !i.closeOnly && a.spot <= cfg.tolerance
  }

  function Known(o: OpenOrder): bool {
    o.id > 0
  }

  /** What is held in both venues, what resting orders could still open, and the new order. */
  function GrossIfFilled(a: Account, i: Intent): real {
    Abs(a.spot) + Abs(a.margin) + RestingOpen(a.openOrders) + Abs(i.amount)
  }

  /** The equity in use: its own up to the capital base, or the base without any. */
  function UsableEquity(g: GuardConfig, a: Account): real {
    if 0.0 < a.equity < g.capitalBase then a.equity else g.capitalBase
  }

  predicate FitsGross(g: GuardConfig, a: Account, i: Intent) {
    Times(GrossIfFilled(a, i), i.limitPrice) <= Times(UsableEquity(g, a), g.grossExposure) + 1.0
  }

  predicate Opens(i: Intent) {
    (i.venue == Spot) == (i.side == Buy)
  }

  /** What resting orders of known identity could still open, in both venues. */
  function RestingOpen(orders: seq<OpenOrder>): real {
    var resting := Filter(orders, Known);
    Protocol.Pending(resting, Spot) + Protocol.Pending(resting, Margin)
  }

  lemma RestingOneMore(front: seq<OpenOrder>, last: OpenOrder)
    ensures RestingOpen(front + [last]) == RestingOpen(front) + if OpensPosition(last) then Abs(last.remaining) else 0.0
  {
    var v := Filter(front, Known);
    assert (front + [last])[..|front|] == front;
    Protocol.PendingAppends(v, [last], Spot);
    Protocol.PendingAppends(v, [last], Margin);
    Protocol.Singleton(last, Spot, 0);
    Protocol.Singleton(last, Margin, 0);
  }

  lemma TimesSum(x: real, y: real, price: real)
    ensures Times(x + y, price) == Times(x, price) + Times(y, price)
    ensures Times(0.0, price) == 0.0
  {
    Distribute(x, y, price);
  }

  lemma {:induction false} PendingIsGross(orders: seq<OpenOrder>, price: real)
    ensures PendingOpening(orders, price) == Times(RestingOpen(orders), price)
  {
    hide Times, RestingOpen, OpensPosition;
    if orders == [] {
      NothingRests();
      TimesSum(0.0, 0.0, price);
    } else {
      var front, last := orders[..|orders| - 1], orders[|orders| - 1];
      assert orders == front + [last];
      PendingIsGross(front, price);
      RestingOneMore(front, last);
      TimesSum(RestingOpen(front), if OpensPosition(last) then Abs(last.remaining) else 0.0, price);
    }
  }

  lemma NothingRests()
    ensures RestingOpen([]) == 0.0
  {
  }

  lemma GrossUseInTerms(g: GuardConfig, a: Account, i: Intent)
    ensures GrossUse(a, i) == Times(GrossIfFilled(a, i), i.limitPrice)
    ensures GrossCap(g, a) == Times(UsableEquity(g, a), g.grossExposure) + 1.0
  {
    CapInTerms(g, a);
    hide Times, RestingOpen, GrossCap;
    PendingIsGross(a.openOrders, i.limitPrice);
    TimesSum(Abs(a.spot) + Abs(a.margin), RestingOpen(a.openOrders), i.limitPrice);
    TimesSum(Abs(a.spot) + Abs(a.margin) + RestingOpen(a.openOrders), Abs(i.amount), i.limitPrice);
  }

  lemma CapInTerms(g: GuardConfig, a: Account)
    ensures GrossCap(g, a) == Times(UsableEquity(g, a), g.grossExposure) + 1.0
  {
  }

  /**
   * The guard accepts an order if and only if its snapshot is current, it fits the holdings and, if it opens, the gross
   * exposure with every resting order and this one filled stays within the cap; and it says which of the three fails.
   */
  lemma AcceptedIff(cfg: Config, g: GuardConfig, a: Account, now: Time, i: Intent)
    ensures var v := Judge(cfg, g, a, now, i);
      && (v == Accepted <==> Current(g, a, now) && FitsHoldings(cfg, a, i) && (Opens(i) ==> FitsGross(g, a, i)))
      && (v == SnapshotStale <==> !Current(g, a, now))
      && (v == GrossCapExceeded <==>
            Current(g, a, now) && FitsHoldings(cfg, a, i) && Opens(i) && !FitsGross(g, a, i))
  {
    hide GrossUse, GrossCap, GrossIfFilled, UsableEquity, Times;
    GrossUseInTerms(g, a, i);
  }
}
