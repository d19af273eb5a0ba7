/** The exchange adapter's independent order guard, and its agreement with the planner. */
module OrderGuard {
  import opened Numbers
  import opened Domain
  import opened Planner
  import opened PlannerFacts
  import Tracker

  datatype GuardConfig = GuardConfig(accountMaxAge: Duration, capitalBase: real, grossExposure: real)

  datatype Verdict =
    | Accepted | SnapshotStale | SellAboveHeld | MarginLong | CloseAboveShort | CloseOnlySell
    | SpotRemains | ShortRemains | GrossCapExceeded

  predicate OpensPosition(o: OpenOrder) {
    o.id > 0 && ((o.venue == Spot && o.remaining > 0.0) || (o.venue == Margin && o.remaining < 0.0))
  }

  function PendingOpening(orders: seq<OpenOrder>, price: real): real {
    if orders == [] then 0.0
    else
      var o := orders[|orders| - 1];
      PendingOpening(orders[..|orders| - 1], price) + (if OpensPosition(o) then Times(Abs(o.remaining), price) else 0.0)
  }

  /** The venue, side and inventory half of the guard. */
  function HoldingVerdict(cfg: Config, a: Account, i: Intent): Verdict {
    var q := Abs(i.amount);
    match (i.venue, i.side)
    case (Spot, Sell) => if q > a.spot + cfg.quantityStep then SellAboveHeld else Accepted
    case (Margin, Buy) =>
      if !i.closeOnly then MarginLong
      else if q > Abs(Min(0.0, a.margin)) + cfg.quantityStep then CloseAboveShort else Accepted
    case (Margin, Sell) =>
      if i.closeOnly then CloseOnlySell else if a.spot > cfg.tolerance then SpotRemains else Accepted
    case (Spot, Buy) => if a.margin < -cfg.tolerance then ShortRemains else Accepted
  }

  function GrossCap(g: GuardConfig, a: Account): real {
    (if a.equity <= 0.0 || a.equity > g.capitalBase then g.capitalBase else a.equity) * g.grossExposure + 1.0
  }

  function GrossUse(a: Account, i: Intent): real {
    Times(Abs(a.spot) + Abs(a.margin), i.limitPrice) + PendingOpening(a.openOrders, i.limitPrice)
    + Times(Abs(i.amount), i.limitPrice)
  }

  function Judge(cfg: Config, g: GuardConfig, a: Account, now: Time, i: Intent): Verdict {
    if a.updatedAt == 0 || now - a.updatedAt > g.accountMaxAge then SnapshotStale
    else if HoldingVerdict(cfg, a, i) != Accepted then HoldingVerdict(cfg, a, i)
    else if ((i.venue == Spot) == (i.side == Buy)) && GrossUse(a, i) > GrossCap(g, a) then GrossCapExceeded
    else Accepted
  }

  method ValidateIntent(cfg: Config, g: GuardConfig, a: Account, now: Time, i: Intent) returns (v: Verdict)
    ensures v == Judge(cfg, g, a, now, i)
  {
    hide GrossCap, Times;
    if a.updatedAt == 0 || now - a.updatedAt > g.accountMaxAge {
      return SnapshotStale;
    }
    var qty := Abs(i.amount);
    match (i.venue, i.side) {
      case (Spot, Sell) =>
        if qty > a.spot + cfg.quantityStep {
          return SellAboveHeld;
        }
      case (Margin, Buy) =>
        if !i.closeOnly {
          return MarginLong;
        }
        var shortQty := Abs(Min(0.0, a.margin));
        if qty > shortQty + cfg.quantityStep {
          return CloseAboveShort;
        }
      case (Margin, Sell) =>
        if i.closeOnly {
          return CloseOnlySell;
        }
        if a.spot > cfg.tolerance {
          return SpotRemains;
        }
      case (Spot, Buy) =>
        if a.margin < -cfg.tolerance {
          return ShortRemains;
        }
    }
    var currentGross := Times(Abs(a.spot) + Abs(a.margin), i.limitPrice);
    var pendingOpening := 0.0;
    for k := 0 to |a.openOrders|
      invariant pendingOpening == PendingOpening(a.openOrders[..k], i.limitPrice)
    {
      assert a.openOrders[..k + 1][..k] == a.openOrders[..k];
      if a.openOrders[k].id <= 0 {
        continue;
      }
      if OpensPosition(a.openOrders[k]) {
        pendingOpening := pendingOpening + Times(Abs(a.openOrders[k].remaining), i.limitPrice);
      }
    }
    assert a.openOrders[..|a.openOrders|] == a.openOrders;
    var opening := (i.venue == Spot && i.side == Buy) || (i.venue == Margin && i.side == Sell);
    if opening && currentGross + pendingOpening + Times(qty, i.limitPrice) > GrossCap(g, a) {
      return GrossCapExceeded;
    }
    return Accepted;
  }

  /**
   * Guard compatibility: an order planned from a snapshot, with the position reconciled from that snapshot, can
   * only be refused for age or for gross exposure; and a reducing order only for age.
   */
  lemma PlannedOrdersPassTheGuard(cfg: Config, g: GuardConfig, inp: Input, now: Time)
    requires cfg.Scaled()
    requires inp.position.quantity == Tracker.CurrentQuantity(inp.account)
    requires Decide(cfg, inp).Submit?
    ensures var v := Judge(cfg, g, inp.account, now, Decide(cfg, inp).intent);
      && v in {Accepted, SnapshotStale, GrossCapExceeded}
      && (!IsOpening(Decide(cfg, inp).intent) ==> v in {Accepted, SnapshotStale})
  {
    hide GrossCap, GrossUse, Protective, Toward, WithinCaps, IsMultiple, RoundDown;
    var i := Decide(cfg, inp).intent;
    if i.protective {
      ProtectiveShape(cfg, inp);
    } else {
      WorkingOrderShape(cfg, inp);
    }
    assert Abs(i.amount) == i.quantity;
    assert HoldingVerdict(cfg, inp.account, i) == Accepted;
  }
}
