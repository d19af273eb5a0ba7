/** The execution planner: the position, working orders and target of one tick decide one action. */
module Planner {
  import opened Numbers
  import opened Sequences
  import opened Domain

  datatype Config = Config(
    groupId: int, stopGroupId: int, minQuantity: real, quantityStep: real, priceStep: real, tolerance: real,
    maxChildNotional: real, depthParticipation: real, volumeParticipation: real,
    maxOrderAge: Duration, minSubmitInterval: Duration, slippageBps: real, protectiveStops: bool)
  {
    /** The execution part of config.Validate. */
    predicate Valid() {
      && minQuantity > 0.0 && quantityStep > 0.0 && priceStep > 0.0
      && 0.0 < depthParticipation <= 1.0 && 0.0 < volumeParticipation <= 1.0
    }

    /** Valid, and scaled so that the planner's fixed 1e-9 and 1e-12 slacks are below every configured grid. */
    predicate Scaled() {
      && Valid() && groupId != stopGroupId
      && tolerance >= 1e-9 && minQuantity > tolerance + 1e-9
      && quantityStep >= SLACK && priceStep >= SLACK
    }
  }

  /** The values a configuration file may leave out. */
  const DEFAULTS := Config(
    883301, 883302, 0.002, 0.0001, 0.1, 0.001, 5000.0, 0.05, 0.10, 45 * SECOND, 5 * SECOND, 8.0, true)

  datatype Input = Input(
    now: Time, account: Account, target: Target, position: Position, direct: Book,
    recentVolume: real, urgent: bool)

  // ---- Grids ----------------------------------------------------------------------------------

  function RoundDown(v: real, step: real): real {
    if step <= 0.0 then v else Floor((v + SLACK) / step) as real * step
  }

  function RoundPrice(v: real, step: real, side: Side): real {
    if step <= 0.0 then v
    else if side == Buy then Floor((v + SLACK) / step) as real * step
    else Ceil((v - SLACK) / step) as real * step
  }

  // ---- Order selection ------------------------------------------------------------------------

  function InGroup(gid: int): OpenOrder -> bool {
    (o: OpenOrder) => o.gid == gid
  }

  function Ids(orders: seq<OpenOrder>): (ids: seq<int>)
    ensures |ids| == |orders|
    ensures forall i :: 0 <= i < |ids| ==> ids[i] == orders[i].id
  {
    seq(|orders|, i requires 0 <= i < |orders| => orders[i].id)
  }

  predicate SupportsTarget(o: OpenOrder, target: real, a: Account) {
    if o.isStop then true
    else if target > 0.0 then
      if a.margin < 0.0 then o.venue == Margin && o.remaining > 0.0
      else
        var d := target - Max(0.0, a.spot);
        (d > 0.0 && o.venue == Spot && o.remaining > 0.0) || (d < 0.0 && o.venue == Spot && o.remaining < 0.0)
    else if target < 0.0 then
      if a.spot > 0.0 then o.venue == Spot && o.remaining < 0.0
      else
        var d := Abs(target) - Abs(Min(0.0, a.margin));
        (d > 0.0 && o.venue == Margin && o.remaining < 0.0) || (d < 0.0 && o.venue == Margin && o.remaining > 0.0)
    else
      (o.venue == Spot && o.remaining < 0.0) || (o.venue == Margin && o.remaining > 0.0)
  }

  predicate Stale(cfg: Config, inp: Input, o: OpenOrder) {
    o.createdAt == 0 || inp.now - o.createdAt > cfg.maxOrderAge
    || !SupportsTarget(o, inp.target.quantity, inp.account)
  }

  // ---- Child orders ---------------------------------------------------------------------------

  /** How much a budget buys at a price. */
  function Affordable(budget: real, price: real): real
    requires price > 0.0
  {
    budget / price
  }

  /** The enabled caps on a child at this mid price: notional, share of depth, share of recent volume. */
  function Caps(cfg: Config, book: Book, volume: real): seq<real>
    requires book.Mid() > 0.0
  {
    var price := book.Mid();
    (if cfg.maxChildNotional > 0.0 then [Affordable(cfg.maxChildNotional, price)] else [])
    + (if cfg.depthParticipation > 0.0 && book.depthQuote > 0.0
       then [Affordable(Times(book.depthQuote, cfg.depthParticipation), price)] else [])
    + (if cfg.volumeParticipation > 0.0 && volume > 0.0
       then [Affordable(Times(volume, cfg.volumeParticipation), price)] else [])
  }

  /** The least element. */
  function Least(s: seq<real>): (m: real)
    requires |s| > 0
    ensures m in s
    ensures forall x :: x in s ==> m <= x
  {
    if |s| == 1 then s[0]
    else
      assert s == s[..|s| - 1] + [s[|s| - 1]];
      Min(Least(s[..|s| - 1]), s[|s| - 1])
  }

  function Capped(cfg: Config, inp: Input, q: real): real {
    if q <= 0.0 || inp.direct.Mid() <= 0.0 then 0.0 else Least([q] + Caps(cfg, inp.direct, inp.recentVolume))
  }

  function ChildPrice(cfg: Config, inp: Input, side: Side): real {
    if side == Buy then
      if inp.urgent then inp.direct.ask * (1.0 + cfg.slippageBps / 10000.0) else inp.direct.bid
    else
      if inp.urgent then inp.direct.bid * (1.0 - cfg.slippageBps / 10000.0) else inp.direct.ask
  }

  function Signed(side: Side, q: real): real {
    if side == Sell then -q else q
  }

  /** A child order toward the target: capped, rounded down, and dropped when below the minimum. */
  function Child(cfg: Config, inp: Input, venue: Venue, side: Side, want: real): Plan {
    var capped := Capped(cfg, inp, want);
    var q := RoundDown(capped, cfg.quantityStep);
    if capped < cfg.minQuantity || q < cfg.minQuantity then NoAction(BelowMinimum)
    else
      var opening := (venue == Spot) == (side == Buy);
      Submit(Intent(
        venue, side, false, Signed(side, q), q, RoundPrice(ChildPrice(cfg, inp, side), cfg.priceStep, side),
        if opening then inp.target.stopDistance else 0.0, !inp.urgent, venue == Margin && side == Buy, false,
        cfg.groupId))
  }

  // ---- Protective stops -----------------------------------------------------------------------

  predicate NeedsStopCancellation(target: real, a: Account) {
    var current := a.Net();
    Abs(current) < 1e-9 || target == 0.0 || (target > 0.0) != (current > 0.0)
    || Abs(target) < Abs(current) - 1e-9
  }

  predicate ShouldProtectDuringBuild(inp: Input) {
    var current, target := inp.account.Net(), inp.target.quantity;
    && Abs(inp.position.quantity) > 1e-9 && inp.position.stopPrice > 0.0 && Abs(current) > 1e-9
    && (target > 0.0) == (current > 0.0)
    && Abs(target) + 1e-9 >= Abs(current)
  }

  /** A resting stop no longer matches the position it protects. */
  predicate OutOfDate(cfg: Config, p: Position, o: OpenOrder) {
    Abs(Abs(o.remaining) - Abs(p.quantity)) > cfg.quantityStep * 2.0
    || Abs(o.price - p.stopPrice) > cfg.priceStep * 1.5
  }

  function StopIntent(cfg: Config, p: Position, q: real): Intent {
    var side := if p.quantity < 0.0 then Buy else Sell;
    Intent(if p.quantity < 0.0 then Margin else Spot, side, true, Signed(side, q), q,
           RoundPrice(p.stopPrice, cfg.priceStep, side), 0.0, false, p.quantity < 0.0, true, cfg.stopGroupId)
  }

  function Protective(cfg: Config, p: Position, stops: seq<OpenOrder>): Plan {
    if !cfg.protectiveStops || Abs(p.quantity) <= cfg.tolerance || p.stopPrice <= 0.0 then NoAction(WithinTolerance)
    else if stops != [] then
      if exists o :: o in stops && OutOfDate(cfg, p, o) then Cancel(Sorted(Ids(stops))) else NoAction(StopActive)
    else
      var q := RoundDown(Abs(p.quantity), cfg.quantityStep);
      if q < cfg.minQuantity then NoAction(StopBelowMinimum) else Submit(StopIntent(cfg, p, q))
  }

  // ---- The decision ---------------------------------------------------------------------------

  /** Where the holding still has to move: one venue and side, or nowhere. */
  datatype Move = Move(venue: Venue, side: Side, want: real) | Flat | OnTarget

  function NextMove(cfg: Config, target: real, a: Account): Move {
    var tol := cfg.tolerance;
    var spot, margin := Max(0.0, a.spot), Min(0.0, a.margin);
    if target > tol && margin < -tol then Move(Margin, Buy, -margin)
    else if target < -tol && spot > tol then Move(Spot, Sell, spot)
    else if Abs(target) <= tol then
      if spot > tol then Move(Spot, Sell, spot)
      else if margin < -tol then Move(Margin, Buy, -margin)
      else Flat
    else if target > 0.0 && Abs(target - spot) > tol then
      Move(Spot, if target > spot then Buy else Sell, Abs(target - spot))
    else if target < 0.0 && Abs(margin - target) > tol then
      Move(Margin, if target < margin then Sell else Buy, Abs(margin - target))
    else OnTarget
  }

  /** The step toward the target once no working order is outstanding. */
  function Toward(cfg: Config, inp: Input, stops: seq<OpenOrder>): Plan {
    match NextMove(cfg, inp.target.quantity, inp.account)
    case Move(venue, side, want) => Child(cfg, inp, venue, side, want)
    case Flat => NoAction(AlreadyFlat)
    case OnTarget => Protective(cfg, inp.position, stops)
  }

  function Decide(cfg: Config, inp: Input): Plan {
    if !inp.direct.Valid() then NoAction(BookInvalid)
    else
      var normal := Filter(inp.account.openOrders, InGroup(cfg.groupId));
      var stops := Filter(inp.account.openOrders, InGroup(cfg.stopGroupId));
      var protection := Protective(cfg, inp.position, stops);
      if stops != [] && NeedsStopCancellation(inp.target.quantity, inp.account) then Cancel(Sorted(Ids(stops)))
      else if ShouldProtectDuringBuild(inp) && !protection.NoAction? then protection
      else if normal != [] then
        var stale := Filter(normal, o => Stale(cfg, inp, o));
        if stale != [] then Cancel(Sorted(Ids(stale))) else NoAction(WorkingOrder)
      else Toward(cfg, inp, stops)
  }
}
