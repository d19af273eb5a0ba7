/** What every plan guarantees, whatever the account, target, position and book. */
module PlannerFacts {
  import opened Numbers
  import opened Sequences
  import opened Domain
  import opened Planner

  lemma RoundDownBounds(v: real, step: real)
    requires step > 0.0
    ensures v + SLACK - step < RoundDown(v, step) <= v + SLACK
    ensures IsMultiple(RoundDown(v, step), step)
  {
    FloorTimesStep(v + SLACK, step);
    assert RoundDown(v, step) == Steps(Floor((v + SLACK) / step), step);
  }

  lemma RoundDownMonotone(x: real, y: real, step: real)
    requires step > 0.0 && x <= y
    ensures RoundDown(x, step) <= RoundDown(y, step)
  {
    DivMonotone(x + SLACK, y + SLACK, step);
    FloorMonotone((x + SLACK) / step, (y + SLACK) / step);
    MulMonotone(Floor((x + SLACK) / step) as real, Floor((y + SLACK) / step) as real, step);
  }

  lemma RoundPriceBounds(v: real, step: real, side: Side)
    requires step > 0.0
    ensures Abs(RoundPrice(v, step, side) - v) < step + SLACK
    ensures side == Buy ==> v + SLACK - step < RoundPrice(v, step, side) <= v + SLACK
    ensures side == Sell ==> v - SLACK <= RoundPrice(v, step, side) < v - SLACK + step
  {
    BuyPriceBounds(v, step);
    SellPriceBounds(v, step);
    hide RoundPrice;
  }

  lemma BuyPriceBounds(v: real, step: real)
    requires step > 0.0
    ensures v + SLACK - step < RoundPrice(v, step, Buy) <= v + SLACK
  {
    FloorTimesStep(v + SLACK, step);
  }

  lemma SellPriceBounds(v: real, step: real)
    requires step > 0.0
    ensures v - SLACK <= RoundPrice(v, step, Sell) < v - SLACK + step
  {
    CeilTimesStep(v - SLACK, step);
  }

  /** The goal the planner pursues: a target inside the tolerance band means flat. */
  function Goal(cfg: Config, target: real): real {
    if Abs(target) <= cfg.tolerance then 0.0 else target
  }

  /** The order's value at mid, up to rounding, against every enabled limit. */
  predicate WithinCaps(cfg: Config, inp: Input, q: real) {
    var value := Times(q - SLACK, inp.direct.Mid());
    && (cfg.maxChildNotional > 0.0 ==> value <= cfg.maxChildNotional)
    && (inp.direct.depthQuote > 0.0 ==> value <= Times(inp.direct.depthQuote, cfg.depthParticipation))
    && (inp.recentVolume > 0.0 ==> value <= Times(inp.recentVolume, cfg.volumeParticipation))
  }

  lemma ValueWithin(q: real, price: real, budget: real)
    requires price > 0.0 && q <= Affordable(budget, price)
    ensures Times(q, price) <= budget
  {
    var c := Affordable(budget, price);
    assert c * price == budget;
    MulMonotone(q, c, price);
  }

  /** A quantity below every enabled cap is within every limit. */
  lemma CapsAreLimits(cfg: Config, inp: Input, q: real)
    requires cfg.Valid() && inp.direct.Valid()
    requires forall c :: c in Caps(cfg, inp.direct, inp.recentVolume) ==> q <= c + SLACK
    ensures WithinCaps(cfg, inp, q)
  {
    hide Times, Affordable;
    var price, book, caps := inp.direct.Mid(), inp.direct, Caps(cfg, inp.direct, inp.recentVolume);
    if cfg.maxChildNotional > 0.0 {
      assert Affordable(cfg.maxChildNotional, price) in caps;
      ValueWithin(q - SLACK, price, cfg.maxChildNotional);
    }
    if book.depthQuote > 0.0 {
      assert Affordable(Times(book.depthQuote, cfg.depthParticipation), price) in caps;
      ValueWithin(q - SLACK, price, Times(book.depthQuote, cfg.depthParticipation));
    }
    if inp.recentVolume > 0.0 {
      assert Affordable(Times(inp.recentVolume, cfg.volumeParticipation), price) in caps;
      ValueWithin(q - SLACK, price, Times(inp.recentVolume, cfg.volumeParticipation));
    }
  }

  lemma CappedAtMost(cfg: Config, inp: Input, q: real)
    requires q > 0.0 && inp.direct.Valid()
    ensures Capped(cfg, inp, q) <= q
  {
    hide Caps;
    var limits := [q] + Caps(cfg, inp.direct, inp.recentVolume);
    assert limits[0] in limits;
  }

  /** The quantity is worth no more at the mid than a limit; none that is not positive limits anything. */
  predicate Allows(limit: real, q: real, mid: real) {
    limit > 0.0 ==> Times(q, mid) <= limit
  }

  predicate Exhausts(limit: real, q: real, mid: real) {
    limit > 0.0 && Times(q, mid) == limit
  }

  lemma AffordableIsExact(budget: real, price: real, q: real)
    requires price > 0.0
    ensures Times(Affordable(budget, price), price) == budget
    ensures q <= Affordable(budget, price) <==> Times(q, price) <= budget
  {
    var a := Affordable(budget, price);
    QuotientTimes(budget, price);
    assert Times(a, price) == budget;
    hide Affordable, Times;
    if q <= a {
      TimesMonotone(q, a, price);
    } else {
      TimesStrict(a, q, price);
    }
  }

  lemma ShareIsPositive(x: real, share: real)
    requires 0.0 < share
    ensures Times(x, share) > 0.0 <==> x > 0.0
  {
    if x > 0.0 {
      MulStrict(0.0, x, share);
    } else {
      MulMonotone(x, 0.0, share);
    }
  }

  /**
   * What is left of a wanted quantity: nothing of nothing, or without a book; else as much as the notional of a child,
   * the share of the depth quoted and the share of the volume traded allow, and no less.
   */
  lemma CappedIsLeast(cfg: Config, inp: Input, q: real)
    requires cfg.Valid()
    ensures q <= 0.0 || !inp.direct.Valid() ==> Capped(cfg, inp, q) == 0.0
    ensures q > 0.0 && inp.direct.Valid() ==>
      var c, mid := Capped(cfg, inp, q), inp.direct.Mid();
      var depth, volume := Times(inp.direct.depthQuote, cfg.depthParticipation),
                           Times(inp.recentVolume, cfg.volumeParticipation);
      && c <= q && Allows(cfg.maxChildNotional, c, mid) && Allows(depth, c, mid) && Allows(volume, c, mid)
      && (c == q || Exhausts(cfg.maxChildNotional, c, mid) || Exhausts(depth, c, mid) || Exhausts(volume, c, mid))
  {
    hide Caps, Affordable, Times;
    if q > 0.0 && inp.direct.Valid() {
      var c, mid := Capped(cfg, inp, q), inp.direct.Mid();
      var depth, volume := Times(inp.direct.depthQuote, cfg.depthParticipation),
                           Times(inp.recentVolume, cfg.volumeParticipation);
      ShareIsPositive(inp.direct.depthQuote, cfg.depthParticipation);
      ShareIsPositive(inp.recentVolume, cfg.volumeParticipation);
      AffordableIsExact(cfg.maxChildNotional, mid, c);
      AffordableIsExact(depth, mid, c);
      AffordableIsExact(volume, mid, c);
      CapsListed(cfg, inp);
      assert q in Limits(cfg, inp, q) && forall x :: x in Caps(cfg, inp.direct, inp.recentVolume) ==>
                                           x in Limits(cfg, inp, q);
    }
  }

  /** The caps are those of the positive limits. */
  lemma CapsListed(cfg: Config, inp: Input)
    requires cfg.Valid() && inp.direct.Valid()
    ensures var caps, mid := Caps(cfg, inp.direct, inp.recentVolume), inp.direct.Mid();
      var depth, volume := Times(inp.direct.depthQuote, cfg.depthParticipation),
                           Times(inp.recentVolume, cfg.volumeParticipation);
      && (cfg.maxChildNotional > 0.0 ==> Affordable(cfg.maxChildNotional, mid) in caps)
      && (depth > 0.0 ==> Affordable(depth, mid) in caps)
      && (volume > 0.0 ==> Affordable(volume, mid) in caps)
      && (forall x :: x in caps ==>
            || (cfg.maxChildNotional > 0.0 && x == Affordable(cfg.maxChildNotional, mid))
            || (depth > 0.0 && x == Affordable(depth, mid)) || (volume > 0.0 && x == Affordable(volume, mid)))
  {
    ShareIsPositive(inp.direct.depthQuote, cfg.depthParticipation);
    ShareIsPositive(inp.recentVolume, cfg.volumeParticipation);
    hide Affordable, Times;
  }

  /** What binds a child: the wanted quantity or one of the enabled caps. */
  function Limits(cfg: Config, inp: Input, want: real): seq<real>
    requires inp.direct.Mid() > 0.0
  {
    [want] + Caps(cfg, inp.direct, inp.recentVolume)
  }

  /**
   * Every child is a whole number of steps, at least the minimum and within rounding of every enabled cap; and it is
   * the largest such child: one more step would pass the wanted quantity or a cap.
   */
  lemma ChildBounds(cfg: Config, inp: Input, venue: Venue, side: Side, want: real)
    requires cfg.Valid() && inp.direct.Valid() && Child(cfg, inp, venue, side, want).Submit?
    ensures var q := Child(cfg, inp, venue, side, want).intent.quantity;
      && IsMultiple(q, cfg.quantityStep) && cfg.minQuantity <= q <= want + SLACK && cfg.minQuantity <= want
      && WithinCaps(cfg, inp, q)
      && exists c :: c in Limits(cfg, inp, want) && q + cfg.quantityStep > c + SLACK
  {
    hide RoundDown, RoundPrice, ChildPrice, Caps, WithinCaps;
    var capped := Capped(cfg, inp, want);
    RoundDownBounds(capped, cfg.quantityStep);
    var limits := Limits(cfg, inp, want);
    assert limits[0] in limits;
    assert capped in limits;
    forall c | c in Caps(cfg, inp.direct, inp.recentVolume) ensures capped <= c {
      assert c in limits;
    }
    CapsAreLimits(cfg, inp, RoundDown(capped, cfg.quantityStep));
  }

  /** How far an order on this venue and side may still move the holding before it passes the goal. */
  function Room(cfg: Config, inp: Input, venue: Venue, side: Side): real {
    var goal := Goal(cfg, inp.target.quantity);
    var spot, margin := Max(0.0, inp.account.spot), Min(0.0, inp.account.margin);
    match (venue, side)
    case (Spot, Buy) => goal - spot
    case (Margin, Sell) => margin - goal
    case (Spot, Sell) => spot - Max(0.0, goal)
    case (Margin, Buy) => -margin - Max(0.0, -goal)
  }

  /** What a non-protective order may do to the holding it was planned from. */
  predicate MovesToward(cfg: Config, inp: Input, i: Intent) {
    var goal, tol := Goal(cfg, inp.target.quantity), cfg.tolerance;
    var spot, margin := Max(0.0, inp.account.spot), Min(0.0, inp.account.margin);
    && cfg.minQuantity <= i.quantity <= Room(cfg, inp, i.venue, i.side) + SLACK
    && cfg.minQuantity <= Room(cfg, inp, i.venue, i.side)
    && match (i.venue, i.side)
       case (Spot, Buy) => goal > tol && margin >= -tol
       case (Margin, Sell) => goal < -tol && spot <= tol
       case (Spot, Sell) => spot > tol
       case (Margin, Buy) => margin < -tol
  }

  /**
   * A working order is planned only when no other one is outstanding, never reaches past the goal, opens a
   * venue only when the other one is flat, and respects every size limit.
   */
  lemma WorkingOrderShape(cfg: Config, inp: Input)
    requires cfg.Valid() && cfg.tolerance >= 0.0
    requires Decide(cfg, inp).Submit? && !Decide(cfg, inp).intent.protective
    ensures var i := Decide(cfg, inp).intent;
      && Filter(inp.account.openOrders, InGroup(cfg.groupId)) == []
      && i.gid == cfg.groupId && !i.isStop && i.amount == Signed(i.side, i.quantity)
      && i.closeOnly == (i.venue == Margin && i.side == Buy) && i.postOnly == !inp.urgent
      && i.stopDistance == (if IsOpening(i) then inp.target.stopDistance else 0.0)
      && MovesToward(cfg, inp, i)
      && IsMultiple(i.quantity, cfg.quantityStep)
      && WithinCaps(cfg, inp, i.quantity)
  {
    hide RoundDown, RoundPrice, Capped, Caps, ChildPrice, WithinCaps, IsMultiple;
    var i := Decide(cfg, inp).intent;
    var m := NextMove(cfg, inp.target.quantity, inp.account);
    ChildBounds(cfg, inp, m.venue, m.side, m.want);
  }

  /** A protective order always reduces, sits in the stop group and covers no more than the tracked position. */
  lemma ProtectiveShape(cfg: Config, inp: Input)
    requires cfg.Valid()
    requires Decide(cfg, inp).Submit? && Decide(cfg, inp).intent.protective
    ensures var i, p := Decide(cfg, inp).intent, inp.position;
      && i.gid == cfg.stopGroupId && i.isStop && i.amount == Signed(i.side, i.quantity)
      && Filter(inp.account.openOrders, InGroup(cfg.stopGroupId)) == []
      && cfg.minQuantity <= i.quantity <= Abs(p.quantity) + SLACK
      && (p.quantity > 0.0 ==> i.venue == Spot && i.side == Sell && !i.closeOnly)
      && (p.quantity < 0.0 ==> i.venue == Margin && i.side == Buy && i.closeOnly)
      && cfg.protectiveStops && p.stopPrice > 0.0 && Abs(p.quantity) > cfg.tolerance && p.quantity != 0.0
      && i.stopDistance == 0.0 && !i.postOnly
  {
    RoundDownBounds(Abs(inp.position.quantity), cfg.quantityStep);
  }

  predicate Reduces(i: Intent) {
    !IsOpening(i)
  }

  predicate SingleVenue(a: Account) {
    a.spot >= 0.0 && a.margin <= 0.0 && (a.spot == 0.0 || a.margin == 0.0)
  }

  /** A normal reducing order goes out only once every stop and every working order is gone. */
  lemma ReductionIsUnencumbered(cfg: Config, inp: Input)
    requires cfg.Scaled() && SingleVenue(inp.account)
    requires Decide(cfg, inp).Submit? && !Decide(cfg, inp).intent.protective && Reduces(Decide(cfg, inp).intent)
    ensures Filter(inp.account.openOrders, InGroup(cfg.groupId)) == []
    ensures Filter(inp.account.openOrders, InGroup(cfg.stopGroupId)) == []
  {
    hide WithinCaps, IsMultiple, RoundDown, RoundPrice, Toward, Protective, Capped, ChildPrice;
    WorkingOrderShape(cfg, inp);
    var stops := Filter(inp.account.openOrders, InGroup(cfg.stopGroupId));
    if stops != [] && !NeedsStopCancellation(inp.target.quantity, inp.account) {
      assert false;
    }
  }

  /** The resting order the exchange shows after accepting a protective intent. */
  function Resting(i: Intent, id: int, at: Time): OpenOrder {
    OpenOrder(id, i.gid, i.venue, i.isStop, i.amount, i.limitPrice, at)
  }

  /** A freshly placed stop is left alone: rounding stays inside the refresh thresholds. */
  lemma FreshStopIsFixpoint(cfg: Config, p: Position, id: int, at: Time)
    requires cfg.Valid() && cfg.quantityStep >= SLACK && cfg.priceStep >= SLACK
    requires Protective(cfg, p, []).Submit?
    ensures !OutOfDate(cfg, p, Resting(Protective(cfg, p, []).intent, id, at))
    ensures Protective(cfg, p, [Resting(Protective(cfg, p, []).intent, id, at)]) == NoAction(StopActive)
  {
    var i := Protective(cfg, p, []).intent;
    RoundDownBounds(Abs(p.quantity), cfg.quantityStep);
    RoundPriceBounds(p.stopPrice, cfg.priceStep, i.side);
    var o := Resting(i, id, at);
    assert Abs(o.remaining) == i.quantity;
    assert !OutOfDate(cfg, p, o);
  }

  /** A book on which no cap bites for the given quantity: no displayed depth, and a price within the notional cap. */
  function PermissiveBook(cfg: Config, q: real): Book
    requires q > 0.0
  {
    var mid := if cfg.maxChildNotional > 0.0 then cfg.maxChildNotional / q else 1.0;
    Book(mid / 2.0, mid + mid / 2.0, 1.0, 1.0, 0.0, 1)
  }

  lemma PermissiveCaps(cfg: Config, inp: Input, q: real)
    requires q > 0.0 && inp.direct == PermissiveBook(cfg, q) && inp.recentVolume == 0.0
    ensures inp.direct.Valid() && Capped(cfg, inp, q) == q
  {
    var mid := if cfg.maxChildNotional > 0.0 then cfg.maxChildNotional / q else 1.0;
    assert mid > 0.0;
    if cfg.maxChildNotional > 0.0 {
      assert mid * q == cfg.maxChildNotional;
      assert cfg.maxChildNotional / mid == q;
      assert [q] + Caps(cfg, inp.direct, 0.0) == [q, q];
    } else {
      assert [q] + Caps(cfg, inp.direct, 0.0) == [q];
    }
  }

  // ---- Prices -----------------------------------------------------------------------------------

  /** The worst price an urgent order may take: a fixed slippage beyond the far side of the book. */
  function SlippageLimit(cfg: Config, b: Book, side: Side): real {
    if side == Buy then b.ask * (1.0 + cfg.slippageBps / 10000.0) else b.bid * (1.0 - cfg.slippageBps / 10000.0)
  }

  /**
   * A passive order rests on its own side of the book, so it never crosses; an urgent one is bounded by the slippage
   * limit; rounding never moves a price against the bot by more than the slack.
   */
  lemma WorkingOrderPrice(cfg: Config, inp: Input)
    requires cfg.Valid() && cfg.tolerance >= 0.0
    requires Decide(cfg, inp).Submit? && !Decide(cfg, inp).intent.protective
    ensures var i, b := Decide(cfg, inp).intent, inp.direct;
      var limit := if inp.urgent then SlippageLimit(cfg, b, i.side) else if i.side == Buy then b.bid else b.ask;
      && (i.side == Buy ==> limit + SLACK - cfg.priceStep < i.limitPrice <= limit + SLACK)
      && (i.side == Sell ==> limit - SLACK <= i.limitPrice < limit - SLACK + cfg.priceStep)
  {
    hide RoundDown, RoundPrice, Capped, Caps, IsMultiple, SlippageLimit;
    var i := Decide(cfg, inp).intent;
    RoundPriceBounds(ChildPrice(cfg, inp, i.side), cfg.priceStep, i.side);
    PriceIsLimit(cfg, inp, i.side);
    hide ChildPrice;
  }

  lemma PriceIsLimit(cfg: Config, inp: Input, side: Side)
    ensures ChildPrice(cfg, inp, side) ==
      if inp.urgent then SlippageLimit(cfg, inp.direct, side)
      else if side == Buy then inp.direct.bid else inp.direct.ask
  {
  }

  /** The exchange stop triggers no later than the tracked one: rounding only tightens it, by less than a step. */
  lemma ProtectiveStopIsNoLooser(cfg: Config, inp: Input)
    requires cfg.Valid()
    requires Decide(cfg, inp).Submit? && Decide(cfg, inp).intent.protective
    ensures var i, stop := Decide(cfg, inp).intent, inp.position.stopPrice;
      && (i.side == Sell ==> stop - SLACK <= i.limitPrice < stop - SLACK + cfg.priceStep)
      && (i.side == Buy ==> stop + SLACK - cfg.priceStep < i.limitPrice <= stop + SLACK)
      && !i.postOnly
  {
    hide RoundDown, RoundPrice, Toward;
    var i := Decide(cfg, inp).intent;
    RoundPriceBounds(inp.position.stopPrice, cfg.priceStep, i.side);
    ProtectiveComesFromTheStop(cfg, inp);
  }

  lemma ProtectiveComesFromTheStop(cfg: Config, inp: Input)
    requires Decide(cfg, inp).Submit? && Decide(cfg, inp).intent.protective
    ensures exists q :: Decide(cfg, inp).intent == StopIntent(cfg, inp.position, q)
  {
    hide RoundDown, RoundPrice, Capped, ChildPrice;
    var q := RoundDown(Abs(inp.position.quantity), cfg.quantityStep);
    assert Decide(cfg, inp).intent == StopIntent(cfg, inp.position, q);
  }

  // ---- Cancellations ----------------------------------------------------------------------------

  /** A cancellation batch is every stop, or exactly the stale working orders, in ascending order. */
  lemma CancelShape(cfg: Config, inp: Input)
    requires Decide(cfg, inp).Cancel?
    ensures var ids, orders := Decide(cfg, inp).ids, inp.account.openOrders;
      && ids != []
      && (forall i, j :: 0 <= i < j < |ids| ==> ids[i] <= ids[j])
      && (multiset(ids) == multiset(Ids(Filter(orders, InGroup(cfg.stopGroupId))))
          || multiset(ids) == multiset(Ids(Filter(Filter(orders, InGroup(cfg.groupId)), o => Stale(cfg, inp, o)))))
  {
    hide Decide, Filter, Ids, Stale;
    CancelSource(cfg, inp);
  }

  lemma CancelSource(cfg: Config, inp: Input)
    requires Decide(cfg, inp).Cancel?
    ensures var orders := inp.account.openOrders;
      var stops := Filter(orders, InGroup(cfg.stopGroupId));
      var stale := Filter(Filter(orders, InGroup(cfg.groupId)), o => Stale(cfg, inp, o));
      || (stops != [] && Decide(cfg, inp).ids == Sorted(Ids(stops)))
      || (stale != [] && Decide(cfg, inp).ids == Sorted(Ids(stale)))
  {
    hide RoundDown, RoundPrice, Capped, Caps, ChildPrice, Stale, OutOfDate, NextMove, Filter, Sorted, Ids,
         NeedsStopCancellation, ShouldProtectDuringBuild;
  }

  predicate OpensMore(o: OpenOrder) {
    !o.isStop && ((o.venue == Spot && o.remaining > 0.0) || (o.venue == Margin && o.remaining < 0.0))
  }

  /** The target is flat, on the other side, or closer to flat than the holding. */
  predicate AsksForLess(target: real, a: Account) {
    a.Net() != 0.0 && Abs(a.Net()) >= 1e-9
    && (target == 0.0 || (target > 0.0) != (a.Net() > 0.0) || Abs(target) < Abs(a.Net()) - 1e-9)
  }

  /** Once the target asks for less, a working order that would open more is withdrawn, the stops before it. */
  lemma OpeningOrdersAreWithdrawn(cfg: Config, inp: Input, o: OpenOrder)
    requires inp.direct.Valid() && SingleVenue(inp.account) && AsksForLess(inp.target.quantity, inp.account)
    requires o in inp.account.openOrders && o.gid == cfg.groupId && OpensMore(o)
    ensures Decide(cfg, inp).Cancel?
    ensures Filter(inp.account.openOrders, InGroup(cfg.stopGroupId)) == [] ==> o.id in Decide(cfg, inp).ids
  {
    hide Protective, Toward;
    var normal := Filter(inp.account.openOrders, InGroup(cfg.groupId));
    var stale := Filter(normal, x => Stale(cfg, inp, x));
    assert o in normal && !SupportsTarget(o, inp.target.quantity, inp.account);
    assert o in stale;
    var k :| 0 <= k < |stale| && stale[k] == o;
    assert Ids(stale)[k] == o.id;
    SameElements(Sorted(Ids(stale)), Ids(stale));
    assert !ShouldProtectDuringBuild(inp);
  }

  /** Without a book of two dated, uncrossed and non-empty sides nothing is planned, and only then for that reason. */
  lemma NothingWithoutABook(cfg: Config, inp: Input)
    ensures var b := inp.direct;
      Decide(cfg, inp) == NoAction(BookInvalid) <==>
        b.bid <= 0.0 || b.ask <= b.bid || b.bidQty <= 0.0 || b.askQty <= 0.0 || b.updatedAt == 0
  {
    hide Protective, Child, Stale, NextMove, NeedsStopCancellation, ShouldProtectDuringBuild;
    var stops := Filter(inp.account.openOrders, InGroup(cfg.stopGroupId));
    ProtectionHasABook(cfg, inp.position, stops);
    ChildHasABook(cfg, inp);
  }

  lemma ProtectionHasABook(cfg: Config, p: Position, stops: seq<OpenOrder>)
    ensures Protective(cfg, p, stops) != NoAction(BookInvalid)
  {
  }

  lemma ChildHasABook(cfg: Config, inp: Input)
    ensures forall venue, side, want :: Child(cfg, inp, venue, side, want) != NoAction(BookInvalid)
  {
    hide RoundDown, RoundPrice, Capped, ChildPrice;
  }

  // ---- Where to move, and when to refresh the stop --------------------------------------------------

  /**
   * Where the holding still has to move: first out of the venue the target does not use, and for a target inside the
   * tolerance out of both, spot first; then in the target's own venue to the target. What lies within the tolerance is
   * left as it is.
   */
  lemma MoveInTerms(cfg: Config, target: real, a: Account)
    requires cfg.tolerance >= 0.0
    ensures var tol, spot, short := cfg.tolerance, Max(0.0, a.spot), Max(0.0, -a.margin);
      NextMove(cfg, target, a) ==
        if target <= tol && spot > tol then Move(Spot, Sell, spot)
        else if target >= -tol && short > tol then Move(Margin, Buy, short)
        else if -tol <= target <= tol then Flat
        else
          var gap := if target > 0.0 then target - spot else -target - short;
          if -tol <= gap <= tol then OnTarget
          else Move(if target > 0.0 then Spot else Margin,
                    if (target > 0.0) == (gap > 0.0) then Buy else Sell, Abs(gap))
  {
  }

  /** A stop off by more than two steps in size or one and a half price steps in its level. */
  predicate Off(cfg: Config, p: Position, o: OpenOrder) {
    Abs(Abs(o.remaining) - Abs(p.quantity)) > 2.0 * cfg.quantityStep || Abs(o.price - p.stopPrice) > 1.5 * cfg.priceStep
  }

  predicate RestsOff(cfg: Config, inp: Input) {
    exists o :: o in inp.account.openOrders && o.gid == cfg.stopGroupId && Off(cfg, inp.position, o)
  }

  predicate SomeRests(inp: Input, gid: int) {
    exists o :: o in inp.account.openOrders && o.gid == gid
  }

  /** What protects a position with a live stop that is large enough to have one. */
  lemma ProtectionInTerms(cfg: Config, inp: Input)
    requires cfg.Scaled() && cfg.protectiveStops
    requires Abs(inp.position.quantity) > cfg.tolerance && inp.position.stopPrice > 0.0
    ensures var stops := Filter(inp.account.openOrders, InGroup(cfg.stopGroupId));
      var protection := Protective(cfg, inp.position, stops);
      && (RestsOff(cfg, inp) ==> protection == Cancel(Sorted(Ids(stops))))
      && (SomeRests(inp, cfg.stopGroupId) && !RestsOff(cfg, inp) ==> protection.NoAction?)
      && (!SomeRests(inp, cfg.stopGroupId) ==>
            if RoundDown(Abs(inp.position.quantity), cfg.quantityStep) >= cfg.minQuantity
            then protection.Submit? && protection.intent.protective else protection.NoAction?)
  {
    hide RoundDown, RoundPrice, Sorted, Ids;
    var stops := Filter(inp.account.openOrders, InGroup(cfg.stopGroupId));
    forall o ensures OutOfDate(cfg, inp.position, o) == Off(cfg, inp.position, o) {}
    if stops != [] {
      assert stops[0] in stops;
    }
  }

  /**
   * While a held position is wanted at least as large as it is, its resting stops are refreshed exactly if one of them
   * is off by more than two steps in size or one and a half price steps in its level; and without any, one is placed
   * exactly if the whole steps of the position make an order.
   */
  lemma StopsAreRefreshedIff(cfg: Config, inp: Input)
    requires cfg.Scaled() && inp.direct.Valid() && cfg.protectiveStops
    requires var p, net, target := inp.position, inp.account.Net(), inp.target.quantity;
      && SameSign(net, target) && Abs(net) > 1e-9 && Abs(target) >= Abs(net) - 1e-9
      && Abs(p.quantity) > cfg.tolerance && p.stopPrice > 0.0
    ensures var plan := Decide(cfg, inp);
      && (RestsOff(cfg, inp) ==>
            plan == Cancel(Sorted(Ids(Filter(inp.account.openOrders, InGroup(cfg.stopGroupId))))))
      && (SomeRests(inp, cfg.stopGroupId) && !RestsOff(cfg, inp) ==>
            !(plan.Submit? && plan.intent.protective) && (plan.Cancel? ==> SomeWorkingIn(cfg, inp, plan.ids)))
      && (!SomeRests(inp, cfg.stopGroupId) ==>
            ((plan.Submit? && plan.intent.protective) <==>
               RoundDown(Abs(inp.position.quantity), cfg.quantityStep) >= cfg.minQuantity))
  {
    hide Decide, RoundDown, Sorted, Ids, Protective, RestsOff, SomeRests, SomeWorkingIn, Filter;
    ProtectionInTerms(cfg, inp);
    ProtectsWhileWanted(cfg, inp);
    if Protective(cfg, inp.position, Filter(inp.account.openOrders, InGroup(cfg.stopGroupId))).NoAction? {
      WithoutProtection(cfg, inp);
    }
  }

  predicate SomeWorkingIn(cfg: Config, inp: Input, ids: seq<int>) {
    exists o :: o in inp.account.openOrders && o.gid == cfg.groupId && o.id in ids
  }

  /** A position wanted at least as large as it is has its protection seen to first. */
  lemma ProtectsWhileWanted(cfg: Config, inp: Input)
    requires inp.direct.Valid()
    requires var p, net, target := inp.position, inp.account.Net(), inp.target.quantity;
      && SameSign(net, target) && Abs(net) > 1e-9 && Abs(target) >= Abs(net) - 1e-9
      && Abs(p.quantity) > 1e-9 && p.stopPrice > 0.0
    ensures var protection := Protective(cfg, inp.position, Filter(inp.account.openOrders, InGroup(cfg.stopGroupId)));
      !protection.NoAction? ==> Decide(cfg, inp) == protection
  {
    hide Protective, Toward, Stale, Sorted, Ids, Filter;
    assert ShouldProtectDuringBuild(inp) && !NeedsStopCancellation(inp.target.quantity, inp.account);
    hide ShouldProtectDuringBuild, NeedsStopCancellation;
  }

  /** Without any protective action, the tick plans none and withdraws working orders only. */
  lemma WithoutProtection(cfg: Config, inp: Input)
    requires inp.direct.Valid()
    requires Protective(cfg, inp.position, Filter(inp.account.openOrders, InGroup(cfg.stopGroupId))).NoAction?
    requires !NeedsStopCancellation(inp.target.quantity, inp.account)
    ensures var p := Decide(cfg, inp);
      && !(p.Submit? && p.intent.protective)
      && (p.Cancel? ==> SomeWorkingIn(cfg, inp, p.ids))
  {
    hide Protective, Stale, NeedsStopCancellation, ShouldProtectDuringBuild, NextMove, RoundDown, RoundPrice, Capped,
         ChildPrice;
    var stale := Filter(Filter(inp.account.openOrders, InGroup(cfg.groupId)), o => Stale(cfg, inp, o));
    if stale != [] {
      IdsOf(stale, stale[0].id);
      assert stale[0] in stale && stale[0] in inp.account.openOrders;
    }
  }

  // ---- Which working orders are withdrawn -----------------------------------------------------------

  /** What the target leaves in a venue: spot for a long, margin for a short, nothing otherwise. */
  function VenueGoal(target: real, v: Venue): real {
    if v == Spot then Max(0.0, target) else Min(0.0, target)
  }

  function VenueHolding(a: Account, v: Venue): real {
    if v == Spot then Max(0.0, a.spot) else Min(0.0, a.margin)
  }

  /** Filling the order moves its venue toward the goal; the target's venue is only built once the other is empty. */
  predicate CalledFor(o: OpenOrder, target: real, a: Account) {
    var held, goal := VenueHolding(a, o.venue), VenueGoal(target, o.venue);
    && (if o.remaining > 0.0 then held < goal else o.remaining < 0.0 && held > goal)
    && (goal != 0.0 ==> VenueHolding(a, if o.venue == Spot then Margin else Spot) == 0.0)
  }

  /** A flat target calls for every order that can only close. */
  predicate Serves(o: OpenOrder, target: real, a: Account) {
    || o.isStop
    || (if target == 0.0 then (if o.venue == Spot then o.remaining < 0.0 else o.remaining > 0.0)
        else CalledFor(o, target, a))
  }

  /** Too old, of unknown age, or not what the holdings and the target call for. */
  predicate Outlived(cfg: Config, inp: Input, o: OpenOrder) {
    o.createdAt == 0 || inp.now - o.createdAt > cfg.maxOrderAge || !Serves(o, inp.target.quantity, inp.account)
  }

  predicate NamesOutlived(cfg: Config, inp: Input, id: int) {
    exists o :: o in inp.account.openOrders && o.gid == cfg.groupId && o.id == id && Outlived(cfg, inp, o)
  }

  /** The stops are not withdrawn and none is placed before the working orders are looked at. */
  predicate StopsAreSettled(cfg: Config, inp: Input) {
    var stops := Filter(inp.account.openOrders, InGroup(cfg.stopGroupId));
    && (stops == [] || !NeedsStopCancellation(inp.target.quantity, inp.account))
    && (!ShouldProtectDuringBuild(inp) || Protective(cfg, inp.position, stops).NoAction?)
  }

  lemma ServesIsSupport(o: OpenOrder, target: real, a: Account)
    ensures Serves(o, target, a) <==> SupportsTarget(o, target, a)
  {
  }

  /**
   * A working order is in the cancelled batch if and only if it has outlived its use; with none of those the tick only
   * waits. So no working order blocks planning for longer than its maximum age.
   */
  lemma WithdrawnIffOutlived(cfg: Config, inp: Input)
    requires inp.direct.Valid() && StopsAreSettled(cfg, inp)
    requires exists o :: o in inp.account.openOrders && o.gid == cfg.groupId
    ensures var p := Decide(cfg, inp);
      && (p == NoAction(WorkingOrder) || p.Cancel?)
      && forall id :: (p.Cancel? && id in p.ids <==> NamesOutlived(cfg, inp, id))
  {
    hide Decide, Stale, Sorted, Ids, Filter, StopsAreSettled, NamesOutlived;
    var stale := Filter(Filter(inp.account.openOrders, InGroup(cfg.groupId)), o => Stale(cfg, inp, o));
    SettledDecision(cfg, inp);
    forall id ensures id in Sorted(Ids(stale)) <==> NamesOutlived(cfg, inp, id) {
      StaleIdsAreOutlived(cfg, inp, id);
    }
    assert Sorted(Ids([])) == [] by { NothingSorted(); }
  }

  lemma NothingSorted()
    ensures Sorted(Ids([])) == []
  {
    SameElements(Sorted(Ids([])), Ids([]));
  }

  lemma StaleIdsAreOutlived(cfg: Config, inp: Input, id: int)
    ensures var stale := Filter(Filter(inp.account.openOrders, InGroup(cfg.groupId)), o => Stale(cfg, inp, o));
      id in Sorted(Ids(stale)) <==> NamesOutlived(cfg, inp, id)
  {
    hide Stale, Outlived, Sorted, Ids;
    var stale := Filter(Filter(inp.account.openOrders, InGroup(cfg.groupId)), o => Stale(cfg, inp, o));
    IdsOf(stale, id);
    if o :| o in stale && o.id == id {
      StaleIsOutlived(cfg, inp, o);
    }
    if o :| o in inp.account.openOrders && o.gid == cfg.groupId && o.id == id && Outlived(cfg, inp, o) {
      StaleIsOutlived(cfg, inp, o);
      assert o in stale;
    }
  }

  lemma StaleIsOutlived(cfg: Config, inp: Input, o: OpenOrder)
    ensures Stale(cfg, inp, o) <==> Outlived(cfg, inp, o)
  {
    hide SupportsTarget, Serves;
    ServesIsSupport(o, inp.target.quantity, inp.account);
  }

  lemma SettledDecision(cfg: Config, inp: Input)
    requires inp.direct.Valid() && StopsAreSettled(cfg, inp)
    requires exists o :: o in inp.account.openOrders && o.gid == cfg.groupId
    ensures var stale := Filter(Filter(inp.account.openOrders, InGroup(cfg.groupId)), o => Stale(cfg, inp, o));
      Decide(cfg, inp) == if stale != [] then Cancel(Sorted(Ids(stale))) else NoAction(WorkingOrder)
  {
    hide Protective, Toward, Stale, Sorted, Ids, NeedsStopCancellation, ShouldProtectDuringBuild;
    var o :| o in inp.account.openOrders && o.gid == cfg.groupId;
    assert o in Filter(inp.account.openOrders, InGroup(cfg.groupId));
  }

  lemma IdsOf(orders: seq<OpenOrder>, id: int)
    ensures id in Sorted(Ids(orders)) <==> exists o :: o in orders && o.id == id
  {
    SameElements(Sorted(Ids(orders)), Ids(orders));
    hide Sorted;
    if id in Ids(orders) {
      var k :| 0 <= k < |orders| && Ids(orders)[k] == id;
      assert orders[k] in orders;
    }
    if o :| o in orders && o.id == id {
      var k :| 0 <= k < |orders| && orders[k] == o;
      assert Ids(orders)[k] == id;
    }
  }

  // ---- Planning again around the order just placed ------------------------------------------------

  /** Nothing at all, not even dust below the tolerance, is held in the venue opposite to the target. */
  predicate OppositeVenueEmpty(target: real, a: Account, venue: Venue) {
    && (target > 0.0 && venue == Spot ==> a.margin >= 0.0)
    && (target < 0.0 && venue == Margin ==> a.spot <= 0.0)
  }

  /** The next tick's input when nothing changed but the clock and the order now resting. */
  function AfterPlacing(inp: Input, o: OpenOrder, later: Time): Input {
    inp.(now := later, account := inp.account.(openOrders := inp.account.openOrders + [o]))
  }

  /** An order on the planned venue and side supports the target exactly when the opposite venue is empty. */
  lemma MoveSupportsIff(cfg: Config, target: real, a: Account, o: OpenOrder)
    requires cfg.tolerance >= 0.0 && !o.isStop
    requires var m := NextMove(cfg, target, a);
      m.Move? && o.venue == m.venue && (if m.side == Buy then o.remaining > 0.0 else o.remaining < 0.0)
    ensures SupportsTarget(o, target, a) <==> OppositeVenueEmpty(target, a, o.venue)
  {
  }

  /** A working order comes from the last stage of the decision. */
  lemma WorkingOrderSource(cfg: Config, inp: Input)
    requires Decide(cfg, inp).Submit? && !Decide(cfg, inp).intent.protective
    ensures var normal := Filter(inp.account.openOrders, InGroup(cfg.groupId));
      var stops := Filter(inp.account.openOrders, InGroup(cfg.stopGroupId));
      var m := NextMove(cfg, inp.target.quantity, inp.account);
      && inp.direct.Valid() && normal == []
      && !(stops != [] && NeedsStopCancellation(inp.target.quantity, inp.account))
      && !(ShouldProtectDuringBuild(inp) && !Protective(cfg, inp.position, stops).NoAction?)
      && m.Move? && Decide(cfg, inp) == Child(cfg, inp, m.venue, m.side, m.want)
  {
    hide RoundDown, RoundPrice, Capped, ChildPrice, NextMove, Filter, Sorted, Ids, NeedsStopCancellation,
         ShouldProtectDuringBuild, Stale;
  }

  /** The placed order joins the working group and leaves the stops as they were. */
  lemma GroupsAfterPlacing(cfg: Config, inp: Input, o: OpenOrder, later: Time)
    requires o.gid == cfg.groupId != cfg.stopGroupId
    ensures var orders := AfterPlacing(inp, o, later).account.openOrders;
      && Filter(orders, InGroup(cfg.groupId)) == Filter(inp.account.openOrders, InGroup(cfg.groupId)) + [o]
      && Filter(orders, InGroup(cfg.stopGroupId)) == Filter(inp.account.openOrders, InGroup(cfg.stopGroupId))
  {
  }

  /** Every test on the holdings is as it was. */
  lemma TestsAfterPlacing(cfg: Config, inp: Input, o: OpenOrder, later: Time)
    ensures var a, target := AfterPlacing(inp, o, later).account, inp.target.quantity;
      && NextMove(cfg, target, a) == NextMove(cfg, target, inp.account)
      && NeedsStopCancellation(target, a) == NeedsStopCancellation(target, inp.account)
      && ShouldProtectDuringBuild(AfterPlacing(inp, o, later)) == ShouldProtectDuringBuild(inp)
      && forall v :: OppositeVenueEmpty(target, a, v) == OppositeVenueEmpty(target, inp.account, v)
  {
  }

  lemma StaleAlone(cfg: Config, inp: Input, o: OpenOrder)
    ensures Filter([o], x => Stale(cfg, inp, x)) == if Stale(cfg, inp, o) then [o] else []
    ensures Sorted(Ids([o])) == [o.id]
  {
    assert [o][..0] == [];
    SameElements(Sorted(Ids([o])), Ids([o]));
  }

  /**
   * Planning again around a working order just placed, with nothing else changed, keeps the order if and only if the
   * venue opposite to the target is empty. Dust there, too small to be closed, makes the planner withdraw its own
   * order on the next tick.
   */
  lemma PlannedOrderStandsIff(cfg: Config, inp: Input, id: int, later: Time)
    requires cfg.Scaled() && inp.now != 0 && later - inp.now <= cfg.maxOrderAge
    requires Decide(cfg, inp).Submit? && !Decide(cfg, inp).intent.protective
    ensures var i := Decide(cfg, inp).intent;
      Decide(cfg, AfterPlacing(inp, Resting(i, id, inp.now), later)) ==
        if OppositeVenueEmpty(inp.target.quantity, inp.account, i.venue) then NoAction(WorkingOrder) else Cancel([id])
  {
    hide NextMove, Filter, Sorted, Ids, SupportsTarget, NeedsStopCancellation, ShouldProtectDuringBuild, Protective,
         OppositeVenueEmpty, Child, Toward;
    var i := Decide(cfg, inp).intent;
    var o := Resting(i, id, inp.now);
    var again := AfterPlacing(inp, o, later);
    WorkingOrderSource(cfg, inp);
    var m := NextMove(cfg, inp.target.quantity, inp.account);
    ChildOrder(cfg, inp, m.venue, m.side, m.want);
    GroupsAfterPlacing(cfg, inp, o, later);
    TestsAfterPlacing(cfg, inp, o, later);
    assert Filter(again.account.openOrders, InGroup(cfg.groupId)) == [o];
    StaleAlone(cfg, again, o);
    MoveSupportsIff(cfg, inp.target.quantity, again.account, o);
  }

  lemma ChildOrder(cfg: Config, inp: Input, venue: Venue, side: Side, want: real)
    requires cfg.Valid() && Child(cfg, inp, venue, side, want).Submit?
    ensures var i := Child(cfg, inp, venue, side, want).intent;
      && i.gid == cfg.groupId && i.venue == venue && i.side == side && !i.isStop
      && (if side == Buy then i.amount > 0.0 else i.amount < 0.0)
  {
    hide RoundDown, RoundPrice, Capped, ChildPrice;
  }

  /** Under the default configuration half a tolerance of short dust makes the planner withdraw its spot purchase. */
  lemma DustWithdrawsThePlannedOrder(id: int)
    ensures var a := Account(30000.0, 0.0, -0.0005, 4000.0, [], false, 1);
      var inp := Input(
        1, a, NO_TARGET.(quantity := 1.0), NO_POSITION, Book(4000.0, 4001.0, 1.0, 1.0, 0.0, 1), 0.0, false);
      var i := Decide(DEFAULTS, inp).intent;
      Decide(DEFAULTS, inp).Submit? && Decide(DEFAULTS, AfterPlacing(inp, Resting(i, id, 1), 2)) == Cancel([id])
  {
    var a := Account(30000.0, 0.0, -0.0005, 4000.0, [], false, 1);
    var inp := Input(
      1, a, NO_TARGET.(quantity := 1.0), NO_POSITION, Book(4000.0, 4001.0, 1.0, 1.0, 0.0, 1), 0.0, false);
    assert NextMove(DEFAULTS, 1.0, a) == Move(Spot, Buy, 1.0);
    assert Floor((1.0 + SLACK) / 0.0001) == 10000;
    PlannedOrderStandsIff(DEFAULTS, inp, id, 2);
  }
}
