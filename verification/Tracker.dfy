/** The position tracker: an in-place software stop that trails the observed position. */
module Tracker {
  import opened Numbers
  import opened Domain

  const QUANTITY_TOLERANCE := 1e-8
  const STOP_CHANGE := 1e-9

  /** maxHolding 0 or less disables the holding-time exit. */
  datatype StopConfig = StopConfig(
    minimumFraction: real, activationR: real, distanceR: real, maxHolding: Duration, stopGroupId: int)

  datatype Exit = NoExit | SimultaneousHoldings | StopHit | HoldingTime

  datatype Event = Event(exit: Exit, entered: bool, closed: bool, closedQuantity: real, stopChanged: bool)

  const QUIET := Event(NoExit, false, false, 0.0, false)

  function CurrentQuantity(a: Account): real {
    if a.spot > QUANTITY_TOLERANCE then a.spot
    else if a.margin < -QUANTITY_TOLERANCE then a.margin
    else 0.0
  }

  function EntryPrice(a: Account, q: real, market: real): real {
    if q < 0.0 && a.marginBasePrice > 0.0 then a.marginBasePrice else market
  }

  predicate Opening(o: OpenOrder) {
    (o.venue == Spot && o.remaining > QUANTITY_TOLERANCE) || (o.venue == Margin && o.remaining < -QUANTITY_TOLERANCE)
  }

  ghost predicate HasOpening(orders: seq<OpenOrder>) {
    exists o :: o in orders && Opening(o)
  }

  function FirstInGroup(orders: seq<OpenOrder>, gid: int): int {
    if orders == [] then 0
    else if orders[0].gid == gid then orders[0].id
    else FirstInGroup(orders[1..], gid)
  }

  function StopFraction(cfg: StopConfig, p: Position): real {
    if p.pendingStopFraction > 0.0 then Max(p.pendingStopFraction, cfg.minimumFraction) else cfg.minimumFraction
  }

  // ---- One observation ------------------------------------------------------------------------

  ghost function Flattened(p: Position, now: Time, orders: seq<OpenOrder>): Position {
    if HasOpening(orders)
    then NO_POSITION.(pendingStopFraction := p.pendingStopFraction, updatedAt := now, entry := p.entry)
    else NO_POSITION.(updatedAt := now)
  }

  /** The stop a fraction away from a price, on the losing side. */
  function StopAt(long: bool, entry: real, fraction: real): real {
    if long then entry * (1.0 - fraction) else entry * (1.0 + fraction)
  }

  function Opened(cfg: StopConfig, p: Position, now: Time, q: real, entry: real): Position {
    var fraction := Max(StopFraction(cfg, p), cfg.minimumFraction);
    NO_POSITION.(quantity := q, averageEntry := entry, initialStopFraction := fraction, bestPrice := entry,
                 stopPrice := StopAt(q > 0.0, entry, fraction), openedAt := now, updatedAt := now, entry := p.entry)
  }

  /** The tighter of a live stop and a candidate; an unset (non-positive) stop yields to the candidate. */
  function Tighter(long: bool, stop: real, candidate: real): real {
    if stop <= 0.0 || (if long then candidate > stop else candidate < stop) then candidate else stop
  }

  function TightenedInitial(p: Position, long: bool): Position {
    if p.averageEntry <= 0.0 || p.initialStopFraction <= 0.0 then p
    else p.(stopPrice := Tighter(long, p.stopPrice, StopAt(long, p.averageEntry, p.initialStopFraction)))
  }

  predicate Grows(p: Position, q: real) {
    Abs(q) > Abs(p.quantity) + QUANTITY_TOLERANCE
  }

  /** The quantity-weighted entry after growing from before to after at a price. */
  function Blend(average: real, before: real, price: real, after: real): real
    requires after > 0.0
  {
    (average * before + price * (after - before)) / after
  }

  function Resized(cfg: StopConfig, p: Position, now: Time, q: real, a: Account, mid: real): Position {
    var sized :=
      if !Grows(p, q) then p
      else
        var before, after := Abs(p.quantity), Abs(q);
        var average := if q < 0.0 && a.marginBasePrice > 0.0 then a.marginBasePrice
                       else Blend(p.averageEntry, before, mid, after);
        var fraction := Max(p.initialStopFraction, StopFraction(cfg, p));
        TightenedInitial(p.(averageEntry := average, initialStopFraction := fraction), q > 0.0)
        .(pendingStopFraction := 0.0);
    sized.(quantity := q, updatedAt := now)
  }

  function Best(long: bool, best: real, price: real): real {
    if long then Max(best, price) else if best <= 0.0 then price else Min(best, price)
  }

  predicate Trails(cfg: StopConfig, riskDistance: real) {
    riskDistance > 0.0 && cfg.activationR > 0.0 && cfg.distanceR > 0.0
  }

  /** The favourable excursion in units of the initial risk. */
  function RewardR(long: bool, average: real, riskDistance: real, best: real): real
    requires riskDistance > 0.0
  {
    (if long then best - average else average - best) / riskDistance
  }

  function TrailingCandidate(cfg: StopConfig, long: bool, riskDistance: real, best: real): real {
    if long then best - riskDistance * cfg.distanceR else best + riskDistance * cfg.distanceR
  }

  function RiskDistance(average: real, fraction: real): real {
    average * fraction
  }

  /** The stop after the activation test: unchanged below the activation R, else no looser than the candidate. */
  function TrailedStop(cfg: StopConfig, long: bool, average: real, riskDistance: real, best: real, stop: real): real
    requires riskDistance > 0.0
  {
    if RewardR(long, average, riskDistance, best) < cfg.activationR then stop
    else
      var c := TrailingCandidate(cfg, long, riskDistance, best);
      if long then (if c > stop then c else stop) else Tighter(false, stop, c)
  }

  function Trailed(cfg: StopConfig, p: Position, price: real): Position {
    if Abs(p.quantity) <= QUANTITY_TOLERANCE || p.averageEntry <= 0.0 then p
    else
      var long, rd := p.quantity > 0.0, RiskDistance(p.averageEntry, p.initialStopFraction);
      var best := Best(long, p.bestPrice, price);
      if !Trails(cfg, rd) then p.(bestPrice := best)
      else p.(bestPrice := best, stopPrice := TrailedStop(cfg, long, p.averageEntry, rd, best, p.stopPrice))
  }

  function ExitReason(cfg: StopConfig, p: Position, now: Time, book: Book): Exit {
    if Abs(p.quantity) <= QUANTITY_TOLERANCE || p.stopPrice <= 0.0 then NoExit
    else if p.quantity > 0.0 && book.bid <= p.stopPrice then StopHit
    else if p.quantity < 0.0 && book.ask >= p.stopPrice then StopHit
    else if cfg.maxHolding > 0 && p.openedAt != 0 && now - p.openedAt >= cfg.maxHolding then HoldingTime
    else NoExit
  }

  predicate Simultaneous(a: Account) {
    a.spot > QUANTITY_TOLERANCE && a.margin < -QUANTITY_TOLERANCE
  }

  predicate Reopens(p: Position, q: real) {
    Abs(p.quantity) <= QUANTITY_TOLERANCE || !SameSign(q, p.quantity)
  }

  function Carried(cfg: StopConfig, p: Position, now: Time, a: Account, mid: real): Position {
    var q := CurrentQuantity(a);
    if Reopens(p, q) then Opened(cfg, p, now, q, EntryPrice(a, q, mid)) else Resized(cfg, p, now, q, a, mid)
  }

  ghost function Observed(cfg: StopConfig, p: Position, now: Time, a: Account, book: Book): Position {
    if !book.Valid() || Simultaneous(a) then p
    else if Abs(CurrentQuantity(a)) <= QUANTITY_TOLERANCE then Flattened(p, now, a.openOrders)
    else
      Trailed(cfg, Carried(cfg, p, now, a, book.Mid()), book.Mid())
      .(stopOrderId := FirstInGroup(a.openOrders, cfg.stopGroupId))
  }

  ghost function Announced(cfg: StopConfig, p: Position, now: Time, a: Account, book: Book): Event {
    if !book.Valid() then QUIET
    else if Simultaneous(a) then QUIET.(exit := SimultaneousHoldings)
    else if Abs(CurrentQuantity(a)) <= QUANTITY_TOLERANCE then
      if Abs(p.quantity) > QUANTITY_TOLERANCE then QUIET.(closed := true, closedQuantity := p.quantity) else QUIET
    else
      var carried := Carried(cfg, p, now, a, book.Mid());
      var trailed := Trailed(cfg, carried, book.Mid());
      var entered := Reopens(p, CurrentQuantity(a));
      QUIET.(entered := entered,
             stopChanged := (!entered && Abs(p.stopPrice - carried.stopPrice) > STOP_CHANGE)
                            || Abs(carried.stopPrice - trailed.stopPrice) > STOP_CHANGE,
             exit := ExitReason(cfg, trailed, now, book))
  }

  function Armed(cfg: StopConfig, p: Position, fraction: real, now: Time): Position {
    if fraction <= 0.0 then p else p.(pendingStopFraction := Max(fraction, cfg.minimumFraction), updatedAt := now)
  }

  class PositionTracker {
    const cfg: StopConfig
    var state: Position

    constructor (cfg: StopConfig, restored: Position)
      ensures this.cfg == cfg && state == restored
    {
      this.cfg := cfg;
      state := restored;
    }

    method Arm(fraction: real, now: Time)
      modifies this
      ensures state == Armed(cfg, old(state), fraction, now)
    {
      if fraction <= 0.0 {
        return;
      }
      state := state.(pendingStopFraction := Max(fraction, cfg.minimumFraction));
      state := state.(updatedAt := now);
    }

    method SetEntryContext(c: EntryContext)
      modifies this
      ensures state == old(state).(entry := Some(c))
    {
      state := state.(entry := Some(c));
    }

    method Reconcile(now: Time, a: Account, book: Book) returns (ev: Event)
      modifies this
      ensures state == Observed(cfg, old(state), now, a, book)
      ensures ev == Announced(cfg, old(state), now, a, book)
    {
      hide StopAt, Blend, Trailed, Opened, TightenedInitial, Book.Mid;
      ev := QUIET;
      if !book.Valid() {
        return;
      }
      if Simultaneous(a) {
        return ev.(exit := SimultaneousHoldings);
      }
      var q := CurrentQuantity(a);
      var was := state;
      if Abs(q) <= QUANTITY_TOLERANCE {
        if Abs(was.quantity) > QUANTITY_TOLERANCE {
          ev := ev.(closed := true, closedQuantity := was.quantity);
        }
        state := NO_POSITION.(pendingStopFraction := was.pendingStopFraction, updatedAt := now, entry := was.entry);
        var pending := HasOpeningOrder(a.openOrders);
        if !pending {
          state := state.(pendingStopFraction := 0.0, entry := None);
        }
        return;
      }
      var entry := EntryPrice(a, q, book.Mid());
      if Abs(was.quantity) <= QUANTITY_TOLERANCE || !SameSign(q, was.quantity) {
        ev := ev.(entered := true);
        Open(now, q, entry, StopFraction(cfg, state));
      } else {
        var oldAbs, newAbs := Abs(was.quantity), Abs(q);
        if newAbs > oldAbs + QUANTITY_TOLERANCE {
          if q < 0.0 && a.marginBasePrice > 0.0 {
            state := state.(averageEntry := a.marginBasePrice);
          } else {
            state := state.(averageEntry := Blend(was.averageEntry, oldAbs, book.Mid(), newAbs));
          }
          state := state.(initialStopFraction := Max(state.initialStopFraction, StopFraction(cfg, state)));
          TightenInitialStop(q);
          state := state.(pendingStopFraction := 0.0);
        }
        state := state.(quantity := q, updatedAt := now);
        if Abs(was.stopPrice - state.stopPrice) > STOP_CHANGE {
          ev := ev.(stopChanged := true);
        }
      }
      var oldStop := state.stopPrice;
      UpdateBestAndTrail(book.Mid());
      if Abs(oldStop - state.stopPrice) > STOP_CHANGE {
        ev := ev.(stopChanged := true);
      }
      var id := FindStopOrder(a.openOrders);
      state := state.(stopOrderId := id);
      ev := ev.(exit := ExitReason(cfg, state, now, book));
    }

    method Open(now: Time, q: real, entry: real, fraction: real)
      requires fraction == StopFraction(cfg, state)
      modifies this
      ensures state == Opened(cfg, old(state), now, q, entry)
    {
      var f := Max(fraction, cfg.minimumFraction);
      state := NO_POSITION.(quantity := q, averageEntry := entry, initialStopFraction := f, bestPrice := entry,
                            openedAt := now, updatedAt := now, entry := state.entry);
      state := state.(stopPrice := StopAt(q > 0.0, entry, f));
    }

    method TightenInitialStop(q: real)
      modifies this
      ensures state == TightenedInitial(old(state), q > 0.0)
    {
      if state.averageEntry <= 0.0 || state.initialStopFraction <= 0.0 {
        return;
      }
      var c := StopAt(q > 0.0, state.averageEntry, state.initialStopFraction);
      if q > 0.0 {
        if state.stopPrice <= 0.0 || c > state.stopPrice {
          state := state.(stopPrice := c);
        }
      } else {
        if state.stopPrice <= 0.0 || c < state.stopPrice {
          state := state.(stopPrice := c);
        }
      }
    }

    method UpdateBestAndTrail(price: real)
      modifies this
      ensures state == Trailed(cfg, old(state), price)
    {
      hide RewardR, TrailingCandidate, RiskDistance;
      if Abs(state.quantity) <= QUANTITY_TOLERANCE || state.averageEntry <= 0.0 {
        return;
      }
      if state.quantity > 0.0 {
        if price > state.bestPrice {
          state := state.(bestPrice := price);
        }
      } else if state.bestPrice <= 0.0 || price < state.bestPrice {
        state := state.(bestPrice := price);
      }
      var rd := RiskDistance(state.averageEntry, state.initialStopFraction);
      if rd <= 0.0 || cfg.activationR <= 0.0 || cfg.distanceR <= 0.0 {
        return;
      }
      var long := state.quantity > 0.0;
      if RewardR(long, state.averageEntry, rd, state.bestPrice) >= cfg.activationR {
        var c := TrailingCandidate(cfg, long, rd, state.bestPrice);
        if long {
          if c > state.stopPrice {
            state := state.(stopPrice := c);
          }
        } else if state.stopPrice <= 0.0 || c < state.stopPrice {
          state := state.(stopPrice := c);
        }
      }
    }

    method HasOpeningOrder(orders: seq<OpenOrder>) returns (found: bool)
      ensures found == HasOpening(orders)
    {
      for i := 0 to |orders|
        invariant forall k :: 0 <= k < i ==> !Opening(orders[k])
      {
        if Opening(orders[i]) {
          return true;
        }
      }
      return false;
    }

    method FindStopOrder(orders: seq<OpenOrder>) returns (id: int)
      ensures id == FirstInGroup(orders, cfg.stopGroupId)
    {
      for i := 0 to |orders|
        invariant FirstInGroup(orders, cfg.stopGroupId) == FirstInGroup(orders[i..], cfg.stopGroupId)
      {
        if orders[i].gid == cfg.stopGroupId {
          return orders[i].id;
        }
        assert orders[i..][1..] == orders[i + 1..];
      }
      return 0;
    }
  }
}
