/** What one observation of the account and the book does to the tracked position, in terms of both. */
module TrackerTerms {
  import opened Numbers
  import opened Domain
  import opened Tracker

  /** The observation counts: a usable book, and not both venues held. */
  predicate Counts(a: Account, book: Book) {
    book.Valid() && !(a.spot > 1e-8 && a.margin < -1e-8)
  }

  /** What is held, dust taken for nothing. */
  function Held(a: Account): real {
    if a.spot > 1e-8 then a.spot else if a.margin < -1e-8 then a.margin else 0.0
  }

  /** The stop fraction to open or add with: the one armed, if any, but no less than the minimum. */
  function FractionInForce(cfg: StopConfig, p: Position): real {
    if p.pendingStopFraction > cfg.minimumFraction && p.pendingStopFraction > 0.0 then p.pendingStopFraction
    else cfg.minimumFraction
  }

  /** A short costs what the exchange says it does; anything else is taken at the middle of the book. */
  function CostOf(a: Account, book: Book): real {
    if Held(a) < 0.0 && a.marginBasePrice > 0.0 then a.marginBasePrice else (book.bid + book.ask) / 2.0
  }

  predicate CouldOpen(o: OpenOrder) {
    if o.venue == Spot then o.remaining > 1e-8 else o.remaining < -1e-8
  }

  /**
   * Once nothing is held the position is forgotten, and reported as closed if there was one; the armed stop and the
   * reading taken for it are kept exactly while an order rests that could still open.
   */
  lemma FlatForgets(cfg: StopConfig, p: Position, now: Time, a: Account, book: Book)
    requires Counts(a, book) && Held(a) == 0.0
    ensures var n, pending := Observed(cfg, p, now, a, book), exists o :: o in a.openOrders && CouldOpen(o);
      n == Position(0.0, 0.0, 0.0, 0.0, 0.0, if pending then p.pendingStopFraction else 0.0, 0, now, 0,
                    if pending then p.entry else None)
    ensures Announced(cfg, p, now, a, book)
         == if Abs(p.quantity) > 1e-8 then Event(NoExit, false, true, p.quantity, false)
            else Event(NoExit, false, false, 0.0, false)
  {
    assert forall o :: Opening(o) <==> CouldOpen(o);
  }

  /** Nothing follows from an observation that does not count, but that both venues must be left. */
  lemma OthersChangeNothing(cfg: StopConfig, p: Position, now: Time, a: Account, book: Book)
    requires !Counts(a, book)
    ensures Observed(cfg, p, now, a, book) == p
    ensures Announced(cfg, p, now, a, book)
         == Event(if book.Valid() then SimultaneousHoldings else NoExit, false, false, 0.0, false)
  {
  }

  /** A held position of the observation's side. */
  predicate Continues(p: Position, q: real) {
    Abs(p.quantity) > 1e-8 && SameSign(q, p.quantity)
  }

  predicate Enlarges(p: Position, q: real) {
    Continues(p, q) && Abs(q) > Abs(p.quantity) + 1e-8
  }

  /** What is held is tracked, with the first order of the stop group, whatever else changes. */
  lemma HoldingIsTracked(cfg: StopConfig, p: Position, now: Time, a: Account, book: Book)
    requires Counts(a, book) && Held(a) != 0.0
    ensures var n, ev := Observed(cfg, p, now, a, book), Announced(cfg, p, now, a, book);
      && n.quantity == Held(a) && n.updatedAt == now && n.entry == p.entry
      && n.stopOrderId == FirstInGroup(a.openOrders, cfg.stopGroupId)
      && (ev.entered <==> !Continues(p, Held(a))) && !ev.closed && ev.closedQuantity == 0.0
  {
    hide StopAt, Blend, RewardR, TrailingCandidate, RiskDistance, Book.Mid;
  }

  /**
   * A position opens at its cost with the fraction in force, which is used up; what has been held since, and for how
   * long, starts anew.
   */
  lemma OpensAtCost(cfg: StopConfig, p: Position, now: Time, a: Account, book: Book)
    requires Counts(a, book) && Held(a) != 0.0 && !Continues(p, Held(a))
    ensures var n := Observed(cfg, p, now, a, book);
      && n.averageEntry == CostOf(a, book) && n.initialStopFraction == FractionInForce(cfg, p)
      && n.openedAt == now && n.pendingStopFraction == 0.0
  {
    hide StopAt, Blend, RewardR, TrailingCandidate, RiskDistance;
  }

  /**
   * Adding takes the exchange's cost of a short, else blends the cost of what is added; it widens the fraction to the
   * one in force if that is larger, and uses it up. Without adding cost, fraction and armed stop stay.
   */
  lemma AddsAtCost(cfg: StopConfig, p: Position, now: Time, a: Account, book: Book)
    requires Counts(a, book) && Continues(p, Held(a))
    ensures var n, q := Observed(cfg, p, now, a, book), Abs(Held(a));
      && n.openedAt == p.openedAt
      && (if Enlarges(p, Held(a)) then
            && n.initialStopFraction == Max(p.initialStopFraction, FractionInForce(cfg, p))
            && n.pendingStopFraction == 0.0
            && (if Held(a) < 0.0 && a.marginBasePrice > 0.0 then n.averageEntry == a.marginBasePrice
                else Times(n.averageEntry, q)
                     == Times(p.averageEntry, Abs(p.quantity)) + Times(book.Mid(), q - Abs(p.quantity)))
          else
            && n.initialStopFraction == p.initialStopFraction && n.pendingStopFraction == p.pendingStopFraction
            && n.averageEntry == p.averageEntry)
  {
    hide StopAt, RewardR, TrailingCandidate, RiskDistance, Book.Mid, Blend;
    var before, after := Abs(p.quantity), Abs(Held(a));
    if Enlarges(p, Held(a)) {
      BlendKeepsCost(p.averageEntry, before, book.Mid(), after);
    }
  }

  lemma BlendKeepsCost(average: real, before: real, price: real, after: real)
    requires after > 0.0
    ensures Times(Blend(average, before, price, after), after)
         == Times(average, before) + Times(price, after - before)
  {
    QuotientTimes(average * before + price * (after - before), after);
  }

  /** The stop is reported as changed exactly if it moved by more than 1e-9, as long as nothing is opened or added. */
  lemma StopChangeIsReported(cfg: StopConfig, p: Position, now: Time, a: Account, book: Book)
    requires Counts(a, book) && Continues(p, Held(a))
    ensures var n, ev := Observed(cfg, p, now, a, book), Announced(cfg, p, now, a, book);
      && (!Enlarges(p, Held(a)) ==> (ev.stopChanged <==> Abs(n.stopPrice - p.stopPrice) > 1e-9))
      && (Abs(n.stopPrice - p.stopPrice) > 2e-9 ==> ev.stopChanged)
  {
    hide StopAt, RewardR, TrailingCandidate, RiskDistance, Book.Mid, Blend, TightenedInitial, Trailed;
    assert Carried(cfg, p, now, a, book.Mid()) == Resized(cfg, p, now, Held(a), a, book.Mid());
  }

  /** A position that opens reports a change only if its stop is trailed at once. */
  lemma OpeningChangeIsReported(cfg: StopConfig, p: Position, now: Time, a: Account, book: Book)
    requires Counts(a, book) && Held(a) != 0.0 && !Continues(p, Held(a))
    ensures var n, ev := Observed(cfg, p, now, a, book), Announced(cfg, p, now, a, book);
      ev.stopChanged <==>
        Abs(n.stopPrice - InitialStop(Held(a) > 0.0, CostOf(a, book), FractionInForce(cfg, p))) > 1e-9
  {
    InitialStopIs(Held(a) > 0.0, CostOf(a, book), FractionInForce(cfg, p));
    hide StopAt, InitialStop, RewardR, TrailingCandidate, RiskDistance, Blend, Trailed;
  }

  /** The stop order is the first resting one of the stop group. */
  lemma {:induction false} StopOrderIsFirst(orders: seq<OpenOrder>, gid: int, k: nat)
    requires k <= |orders| && forall i :: 0 <= i < k ==> orders[i].gid != gid
    ensures k == |orders| ==> FirstInGroup(orders, gid) == 0
    ensures k < |orders| && orders[k].gid == gid ==> FirstInGroup(orders, gid) == orders[k].id
  {
    if k > 0 {
      StopOrderIsFirst(orders[1..], gid, k - 1);
    }
  }

  /** Arming sets the fraction in force, at least the minimum, and dates it; without a fraction it does nothing. */
  lemma ArmingSetsFraction(cfg: StopConfig, p: Position, fraction: real, now: Time)
    ensures var n := Armed(cfg, p, fraction, now);
      if fraction <= 0.0 then n == p
      else
        && n == p.(pendingStopFraction := n.pendingStopFraction, updatedAt := now)
        && n.pendingStopFraction == Max(fraction, cfg.minimumFraction) == FractionInForce(cfg, n)
  {
  }

  /** Without a position there is nothing to trail. */
  lemma NothingToTrail(cfg: StopConfig, p: Position, price: real)
    requires -1e-8 <= p.quantity <= 1e-8 || p.averageEntry <= 0.0
    ensures Trailed(cfg, p, price) == p
  {
  }

  /**
   * After adding, the stop is the old one, the initial stop of the new cost and fraction, or the one that trails the
   * best price; and it is no looser than that initial stop.
   */
  lemma AddingTightens(cfg: StopConfig, p: Position, now: Time, a: Account, book: Book)
    requires Counts(a, book) && Enlarges(p, Held(a)) && p.stopPrice > 0.0
    ensures var n, long := Observed(cfg, p, now, a, book), Held(a) > 0.0;
      var initial := InitialStop(long, n.averageEntry, n.initialStopFraction);
      var trail := n.bestPrice - OnSide(Times(Times(n.averageEntry, n.initialStopFraction), cfg.distanceR), long);
      n.averageEntry > 0.0 && n.initialStopFraction > 0.0 && initial > 0.0 ==>
        && (n.stopPrice == p.stopPrice || n.stopPrice == initial || n.stopPrice == trail)
        && (if long then n.stopPrice >= initial && n.stopPrice >= p.stopPrice
            else n.stopPrice <= initial && n.stopPrice <= p.stopPrice)
  {
    var long, q, mid := Held(a) > 0.0, Held(a), book.Mid();
    var r := Resized(cfg, p, now, q, a, mid);
    assert Carried(cfg, p, now, a, mid) == r;
    ResizedStop(cfg, p, now, q, a, mid);
    TrailedChoice(cfg, r, mid);
    InitialStopIs(long, r.averageEntry, r.initialStopFraction);
    hide Resized, Trailed, StopAt, InitialStop, Blend, Book.Mid, RewardR, TrailingCandidate, RiskDistance;
  }

  lemma ResizedStop(cfg: StopConfig, p: Position, now: Time, q: real, a: Account, mid: real)
    requires Grows(p, q) && p.stopPrice > 0.0
    ensures var r, long := Resized(cfg, p, now, q, a, mid), q > 0.0;
      var initial := StopAt(long, r.averageEntry, r.initialStopFraction);
      && r.quantity == q
      && (r.averageEntry > 0.0 && r.initialStopFraction > 0.0 ==>
            && (r.stopPrice == p.stopPrice || r.stopPrice == initial)
            && (if long then r.stopPrice >= initial && r.stopPrice >= p.stopPrice
                else r.stopPrice <= initial && r.stopPrice <= p.stopPrice))
  {
    hide StopAt, Blend;
  }

  lemma TrailedChoice(cfg: StopConfig, r: Position, price: real)
    requires r.stopPrice > 0.0
    ensures var n, long := Trailed(cfg, r, price), r.quantity > 0.0;
      var trail := n.bestPrice - OnSide(Times(Times(r.averageEntry, r.initialStopFraction), cfg.distanceR), long);
      && n == r.(bestPrice := n.bestPrice, stopPrice := n.stopPrice)
      && (n.stopPrice == r.stopPrice || n.stopPrice == trail)
      && (if long then n.stopPrice >= r.stopPrice else n.stopPrice <= r.stopPrice)
  {
    hide RewardR;
  }

  // ---- Levels -------------------------------------------------------------------------------------

  /** The stop a fraction of the entry away from it, on the losing side. */
  function InitialStop(long: bool, entry: real, fraction: real): real {
    entry - OnSide(Times(entry, fraction), long)
  }

  /**
   * The tighter of the initial stop and, once the extreme has gained as many units of the initial risk as the
   * activation asks for, the stop that trails it by so many units.
   */
  function HistoryStop(cfg: StopConfig, long: bool, entry: real, fraction: real, extreme: real): real {
    var initial, unit := InitialStop(long, entry, fraction), Times(entry, fraction);
    var trail := extreme - OnSide(Times(unit, cfg.distanceR), long);
    if unit <= 0.0 || cfg.activationR <= 0.0 || cfg.distanceR <= 0.0
       || OnSide(extreme - entry, long) < Times(cfg.activationR, unit) then initial
    else if long then Max(initial, trail) else Min(initial, trail)
  }

  lemma InitialStopIs(long: bool, entry: real, fraction: real)
    ensures StopAt(long, entry, fraction) == InitialStop(long, entry, fraction)
  {
  }

  /** The activation in units of risk, as a distance. */
  lemma ActivationIsDistance(cfg: StopConfig, long: bool, entry: real, unit: real, extreme: real)
    requires unit > 0.0
    ensures RewardR(long, entry, unit, extreme) < cfg.activationR
       <==> OnSide(extreme - entry, long) < Times(cfg.activationR, unit)
  {
    var r := RewardR(long, entry, unit, extreme);
    assert r * unit == OnSide(extreme - entry, long);
    if r < cfg.activationR {
      MulStrict(r, cfg.activationR, unit);
    } else {
      MulMonotone(cfg.activationR, r, unit);
    }
  }
}
