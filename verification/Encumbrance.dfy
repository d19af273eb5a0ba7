/** When protective stops and working orders stand in each other's way, with the exact conditions. */
module Encumbrance {
  import opened Numbers
  import opened Sequences
  import opened Domain
  import opened Planner
  import opened PlannerFacts

  // ---- A stop joins a working order that closes ---------------------------------------------------

  /** The order can still sell spot, for a long, or buy back margin, for a short. */
  predicate ClosesSide(o: OpenOrder, long: bool) {
    if long then o.venue == Spot && o.remaining < 0.0 else o.venue == Margin && o.remaining > 0.0
  }

  /** What resting orders could still close of a holding on this side. */
  function Closing(orders: seq<OpenOrder>, long: bool): real {
    if orders == [] then 0.0
    else
      var o := orders[|orders| - 1];
      Closing(orders[..|orders| - 1], long) + if ClosesSide(o, long) then Abs(o.remaining) else 0.0
  }

  /** A holding in one venue, tracked with a live stop that fits; no stop rests, some order works. */
  predicate Unprotected(cfg: Config, inp: Input, long: bool) {
    var a, p := inp.account, inp.position;
    var held := OnSide(a.Net(), long);
    && inp.direct.Valid() && cfg.protectiveStops && (if long then a.margin == 0.0 else a.spot == 0.0)
    && held > cfg.tolerance && p.quantity == a.Net() && p.stopPrice > 0.0
    && RoundDown(held, cfg.quantityStep) >= cfg.minQuantity
    && Filter(a.openOrders, InGroup(cfg.stopGroupId)) == [] && Filter(a.openOrders, InGroup(cfg.groupId)) != []
  }

  /** The next plan is a stop with which the resting orders could close more than the holding. */
  predicate Overcommits(cfg: Config, inp: Input, long: bool) {
    var plan := Decide(cfg, inp);
    && plan.Submit? && plan.intent.protective
    && Closing(inp.account.openOrders, long) + plan.intent.quantity > OnSide(inp.account.Net(), long)
  }

  /**
   * A stop is placed beside working orders as soon as the target is not below the holding; so the orders exceed the
   * holding if and only if the target has been raised to it while orders that close at least what rounding leaves over
   * still work. For longs and shorts alike.
   */
  lemma OvercommitsIff(cfg: Config, inp: Input, long: bool)
    requires cfg.Scaled() && Unprotected(cfg, inp, long)
    ensures var held, closing := OnSide(inp.account.Net(), long), Closing(inp.account.openOrders, long);
      && (Overcommits(cfg, inp, long)
          <==> OnSide(inp.target.quantity, long) >= held - 1e-9
               && closing + RoundDown(held, cfg.quantityStep) > held)
      && (OnSide(inp.target.quantity, long) >= held - 1e-9 && closing >= cfg.quantityStep ==>
            Overcommits(cfg, inp, long))
  {
    hide RoundDown, RoundPrice, Filter, Sorted, Ids, Closing, Toward, Stale;
    RoundDownBounds(OnSide(inp.account.Net(), long), cfg.quantityStep);
  }

  /** A sell of half the holding works, the target returns to the whole, and a stop for the whole joins it. */
  lemma RaisedTargetOvercommits()
    ensures var sell := OpenOrder(7, DEFAULTS.groupId, Spot, false, -0.5, 4001.0, 1);
      var inp := Input(
        2, Account(30000.0, 1.0, 0.0, 0.0, [sell], false, 1), NO_TARGET.(quantity := 1.0),
        NO_POSITION.(quantity := 1.0, averageEntry := 4000.0, initialStopFraction := 0.025, stopPrice := 3900.0),
        Book(4000.0, 4001.0, 1.0, 1.0, 0.0, 1), 0.0, false);
      Overcommits(DEFAULTS, inp, true)
  {
    var sell := OpenOrder(7, DEFAULTS.groupId, Spot, false, -0.5, 4001.0, 1);
    var inp := Input(
      2, Account(30000.0, 1.0, 0.0, 0.0, [sell], false, 1), NO_TARGET.(quantity := 1.0),
      NO_POSITION.(quantity := 1.0, averageEntry := 4000.0, initialStopFraction := 0.025, stopPrice := 3900.0),
      Book(4000.0, 4001.0, 1.0, 1.0, 0.0, 1), 0.0, false);
    assert [sell][..0] == [] && Closing([sell], true) == 0.5;
    assert Floor((1.0 + SLACK) / 0.0001) == 10000;
    assert Filter([sell], InGroup(DEFAULTS.groupId)) == [sell] && Filter([sell], InGroup(DEFAULTS.stopGroupId)) == [];
    OvercommitsIff(DEFAULTS, inp, true);
  }

  // ---- A reduction beside a stop ------------------------------------------------------------------
  //
  // The planner called alone. In a tick, the exit on simultaneous holdings keeps such inputs from it.

  /** The next move closes or reduces a venue. */
  predicate Reducing(m: Move) {
    m.Move? && (m.venue == Spot) != (m.side == Buy)
  }

  /**
   * The move reduces one venue by enough for an order, while the net holding asks for no reduction at all: the other
   * venue hides it.
   */
  predicate NetHidesReduction(cfg: Config, target: real, a: Account) {
    var m := NextMove(cfg, target, a);
    && Reducing(m) && m.want >= cfg.minQuantity && RoundDown(m.want, cfg.quantityStep) >= cfg.minQuantity
    && Abs(a.Net()) >= 1e-9 && target != 0.0 && (target > 0.0) == (a.Net() > 0.0) && Abs(target) >= Abs(a.Net()) - 1e-9
  }

  ghost predicate ReducesBesideStop(cfg: Config, target: real, spot: real, margin: real, inp: Input) {
    var plan := Decide(cfg, inp);
    && inp.account.spot == spot && inp.account.margin == margin && inp.target.quantity == target
    && plan.Submit? && !plan.intent.protective && Reduces(plan.intent)
    && Filter(inp.account.openOrders, InGroup(cfg.stopGroupId)) != []
  }

  function Bare(spot: real, margin: real): Account {
    Account(0.0, spot, margin, 0.0, [], false, 1)
  }

  lemma HoldingsDecide(cfg: Config, target: real, a: Account)
    ensures NextMove(cfg, target, a) == NextMove(cfg, target, Bare(a.spot, a.margin))
    ensures NeedsStopCancellation(target, a) == NeedsStopCancellation(target, Bare(a.spot, a.margin))
    ensures NetHidesReduction(cfg, target, a) == NetHidesReduction(cfg, target, Bare(a.spot, a.margin))
  {
    hide RoundDown;
  }

  /** A reducing order planned beside a stop is one the net holding hides. */
  lemma BesideStopIsHidden(cfg: Config, inp: Input)
    requires cfg.Scaled() && Decide(cfg, inp).Submit? && !Decide(cfg, inp).intent.protective
    requires Reduces(Decide(cfg, inp).intent) && Filter(inp.account.openOrders, InGroup(cfg.stopGroupId)) != []
    ensures NetHidesReduction(cfg, inp.target.quantity, inp.account)
  {
    hide RoundDown, RoundPrice, Capped, Caps, ChildPrice, NextMove, Filter, Protective, ShouldProtectDuringBuild,
         Decide, WithinCaps, IsMultiple;
    WorkingOrderSource(cfg, inp);
    var m := NextMove(cfg, inp.target.quantity, inp.account);
    ChildBounds(cfg, inp, m.venue, m.side, m.want);
    CappedAtMost(cfg, inp, m.want);
    RoundDownMonotone(Capped(cfg, inp, m.want), m.want, cfg.quantityStep);
    ChildSides(cfg, inp, m.venue, m.side, m.want);
  }

  lemma ChildSides(cfg: Config, inp: Input, venue: Venue, side: Side, want: real)
    requires Child(cfg, inp, venue, side, want).Submit?
    ensures var i := Child(cfg, inp, venue, side, want).intent;
      && i.venue == venue && i.side == side && (IsOpening(i) <==> (venue == Spot) == (side == Buy))
      && RoundDown(Capped(cfg, inp, want), cfg.quantityStep) >= cfg.minQuantity
  {
    hide RoundDown, RoundPrice, Capped, ChildPrice;
  }

  /** A stop, untracked position and a book without bite: nothing but the holdings and the target decides. */
  ghost function BesideStop(cfg: Config, target: real, spot: real, margin: real, want: real): Input
    requires want > 0.0
  {
    Input(1, Bare(spot, margin).(openOrders := [OpenOrder(1, cfg.stopGroupId, Spot, true, -1.0, 1.0, 1)]),
          NO_TARGET.(quantity := target), NO_POSITION, PermissiveBook(cfg, want), 0.0, false)
  }

  lemma HiddenIsBesideStop(cfg: Config, target: real, spot: real, margin: real)
    requires cfg.Scaled() && NetHidesReduction(cfg, target, Bare(spot, margin))
    ensures var want := NextMove(cfg, target, Bare(spot, margin)).want;
      want > 0.0 && ReducesBesideStop(cfg, target, spot, margin, BesideStop(cfg, target, spot, margin, want))
  {
    hide RoundDown, RoundPrice, ChildPrice, Capped, PermissiveBook, NextMove, Protective, Filter, NeedsStopCancellation,
         ShouldProtectDuringBuild;
    var m := NextMove(cfg, target, Bare(spot, margin));
    var inp := BesideStop(cfg, target, spot, margin, m.want);
    PermissiveCaps(cfg, inp, m.want);
    HoldingsDecide(cfg, target, inp.account);
    OneStopRests(cfg);
    HiddenTests(cfg, inp);
    assert Decide(cfg, inp) == Child(cfg, inp, m.venue, m.side, m.want);
    ChildSides(cfg, inp, m.venue, m.side, m.want);
  }

  lemma OneStopRests(cfg: Config)
    requires cfg.groupId != cfg.stopGroupId
    ensures var o := OpenOrder(1, cfg.stopGroupId, Spot, true, -1.0, 1.0, 1);
      Filter([o], InGroup(cfg.stopGroupId)) == [o] && Filter([o], InGroup(cfg.groupId)) == []
  {
    var o := OpenOrder(1, cfg.stopGroupId, Spot, true, -1.0, 1.0, 1);
    assert [o][..0] == [];
  }

  lemma HiddenTests(cfg: Config, inp: Input)
    requires NetHidesReduction(cfg, inp.target.quantity, inp.account) && inp.position == NO_POSITION
    ensures !NeedsStopCancellation(inp.target.quantity, inp.account) && !ShouldProtectDuringBuild(inp)
  {
    hide RoundDown, NextMove;
  }

  /** With one venue held, but for dust of the tracker's own tolerance, the net holding hides no reduction. */
  lemma OneVenueHidesNothing(cfg: Config, target: real, a: Account)
    requires cfg.Scaled() && cfg.minQuantity > cfg.tolerance + 1e-8 + 1e-9
    requires a.spot >= 0.0 && a.margin <= 0.0 && (a.spot <= 1e-8 || a.margin >= -1e-8)
    ensures !NetHidesReduction(cfg, target, a)
  {
    hide RoundDown;
  }

  /** The planner lets a reduction go out beside a resting stop if and only if the net holding hides it. */
  lemma ReducesBesideStopIff(cfg: Config, target: real, spot: real, margin: real)
    requires cfg.Scaled()
    ensures (exists inp :: ReducesBesideStop(cfg, target, spot, margin, inp))
       <==> NetHidesReduction(cfg, target, Bare(spot, margin))
  {
    hide NetHidesReduction, Decide;
    if inp :| ReducesBesideStop(cfg, target, spot, margin, inp) {
      BesideStopIsHidden(cfg, inp);
      HoldingsDecide(cfg, target, inp.account);
    }
    if NetHidesReduction(cfg, target, Bare(spot, margin)) {
      HiddenIsBesideStop(cfg, target, spot, margin);
    }
  }

  /** Under the default configuration a tolerance of short dust would hide the sale of twice as much spot. */
  lemma DustHidesReduction()
    ensures NetHidesReduction(DEFAULTS, 0.001, Bare(0.002, -0.001))
    ensures exists inp :: ReducesBesideStop(DEFAULTS, 0.001, 0.002, -0.001, inp)
  {
    assert NextMove(DEFAULTS, 0.001, Bare(0.002, -0.001)) == Move(Spot, Sell, 0.002);
    assert Floor((0.002 + SLACK) / 0.0001) == 20;
    ReducesBesideStopIff(DEFAULTS, 0.001, 0.002, -0.001);
  }
}
