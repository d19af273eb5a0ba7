/** The planner's slice-building and running-minimum loops, and the plan they assemble. */
module PlannerLoops {
  import opened Numbers
  import opened Sequences
  import opened Domain
  import opened Planner

  method FilterGroup(orders: seq<OpenOrder>, gid: int) returns (r: seq<OpenOrder>)
    ensures r == Filter(orders, InGroup(gid))
  {
    r := [];
    for i := 0 to |orders|
      invariant r == Filter(orders[..i], InGroup(gid))
    {
      assert orders[..i + 1][..i] == orders[..i];
      if orders[i].gid == gid {
        r := r + [orders[i]];
      }
    }
    assert orders[..|orders|] == orders;
  }

  method StaleIds(cfg: Config, inp: Input, normal: seq<OpenOrder>) returns (ids: seq<int>)
    ensures ids == Ids(Filter(normal, o => Stale(cfg, inp, o)))
  {
    ids := [];
    var stale := (o: OpenOrder) => Stale(cfg, inp, o);
    for i := 0 to |normal|
      invariant ids == Ids(Filter(normal[..i], stale))
    {
      assert normal[..i + 1][..i] == normal[..i];
      if stale(normal[i]) {
        ids := ids + [normal[i].id];
      }
    }
    assert normal[..|normal|] == normal;
  }

  /** The smallest of the requested quantity and the enabled caps. */
  method CapChild(cfg: Config, inp: Input, q: real) returns (m: real)
    ensures m == Capped(cfg, inp, q)
  {
    hide Affordable, Times;
    if q <= 0.0 || inp.direct.Mid() <= 0.0 {
      return 0.0;
    }
    var price := inp.direct.Mid();
    var limits := [q];
    if cfg.maxChildNotional > 0.0 {
      limits := limits + [Affordable(cfg.maxChildNotional, price)];
    }
    if cfg.depthParticipation > 0.0 && inp.direct.depthQuote > 0.0 {
      limits := limits + [Affordable(Times(inp.direct.depthQuote, cfg.depthParticipation), price)];
    }
    if cfg.volumeParticipation > 0.0 && inp.recentVolume > 0.0 {
      limits := limits + [Affordable(Times(inp.recentVolume, cfg.volumeParticipation), price)];
    }
    assert limits == [q] + Caps(cfg, inp.direct, inp.recentVolume);
    m := Smallest(limits);
  }

  method Smallest(limits: seq<real>) returns (m: real)
    requires |limits| > 0
    ensures m == Least(limits)
  {
    m := limits[0];
    for i := 1 to |limits|
      invariant m == Least(limits[..i])
    {
      assert limits[..i + 1][..i] == limits[..i];
      if limits[i] < m {
        m := limits[i];
      }
    }
    assert limits[..|limits|] == limits;
  }

  method PlanTick(cfg: Config, inp: Input) returns (plan: Plan)
    ensures plan == Decide(cfg, inp)
  {
    if !inp.direct.Valid() {
      return NoAction(BookInvalid);
    }
    var normal := FilterGroup(inp.account.openOrders, cfg.groupId);
    var stops := FilterGroup(inp.account.openOrders, cfg.stopGroupId);
    if stops != [] && NeedsStopCancellation(inp.target.quantity, inp.account) {
      return Cancel(Sorted(Ids(stops)));
    }
    if ShouldProtectDuringBuild(inp) {
      var protection := PlanProtection(cfg, inp.position, stops);
      if !protection.NoAction? {
        return protection;
      }
    }
    if normal != [] {
      var stale := StaleIds(cfg, inp, normal);
      return if stale != [] then Cancel(Sorted(stale)) else NoAction(WorkingOrder);
    }
    plan := PlanToward(cfg, inp, stops);
  }

  method PlanToward(cfg: Config, inp: Input, stops: seq<OpenOrder>) returns (plan: Plan)
    ensures plan == Toward(cfg, inp, stops)
  {
    var target, tol := inp.target.quantity, cfg.tolerance;
    var spot, margin := Max(0.0, inp.account.spot), Min(0.0, inp.account.margin);
    if target > tol && margin < -tol {
      plan := PlanChild(cfg, inp, Margin, Buy, Abs(margin));
      return;
    }
    if target < -tol && spot > tol {
      plan := PlanChild(cfg, inp, Spot, Sell, spot);
      return;
    }
    if Abs(target) <= tol {
      if spot > tol {
        plan := PlanChild(cfg, inp, Spot, Sell, spot);
        return;
      }
      if margin < -tol {
        plan := PlanChild(cfg, inp, Margin, Buy, Abs(margin));
        return;
      }
      return NoAction(AlreadyFlat);
    }
    if target > 0.0 {
      var delta := target - spot;
      if Abs(delta) > tol {
        plan := PlanChild(cfg, inp, Spot, if delta > 0.0 then Buy else Sell, Abs(delta));
        return;
      }
    }
    if target < 0.0 {
      var delta := Abs(target) - Abs(margin);
      if Abs(delta) > tol {
        plan := PlanChild(cfg, inp, Margin, if delta > 0.0 then Sell else Buy, Abs(delta));
        return;
      }
    }
    plan := PlanProtection(cfg, inp.position, stops);
  }

  method PlanChild(cfg: Config, inp: Input, venue: Venue, side: Side, want: real) returns (plan: Plan)
    ensures plan == Child(cfg, inp, venue, side, want)
  {
    var q := CapChild(cfg, inp, want);
    if q < cfg.minQuantity {
      return NoAction(BelowMinimum);
    }
    q := RoundDown(q, cfg.quantityStep);
    if q < cfg.minQuantity {
      return NoAction(BelowMinimum);
    }
    var opening := (venue == Spot) == (side == Buy);
    plan := Submit(Intent(
      venue, side, false, Signed(side, q), q, RoundPrice(ChildPrice(cfg, inp, side), cfg.priceStep, side),
      if opening then inp.target.stopDistance else 0.0, !inp.urgent, venue == Margin && side == Buy, false,
      cfg.groupId));
  }

  method PlanProtection(cfg: Config, p: Position, stops: seq<OpenOrder>) returns (plan: Plan)
    ensures plan == Protective(cfg, p, stops)
  {
    if !cfg.protectiveStops || Abs(p.quantity) <= cfg.tolerance || p.stopPrice <= 0.0 {
      return NoAction(WithinTolerance);
    }
    if stops != [] {
      for i := 0 to |stops|
        invariant forall k :: 0 <= k < i ==> !OutOfDate(cfg, p, stops[k])
      {
        if OutOfDate(cfg, p, stops[i]) {
          return Cancel(Sorted(Ids(stops)));
        }
      }
      return NoAction(StopActive);
    }
    var q := RoundDown(Abs(p.quantity), cfg.quantityStep);
    plan := if q < cfg.minQuantity then NoAction(StopBelowMinimum) else Submit(StopIntent(cfg, p, q));
  }
}
