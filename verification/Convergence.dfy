/**
 * The closed loop of tracker and planner against a fixed target and book with immediate fills: building a
 * position and flattening one both come to rest within an explicit number of ticks.
 */
module Convergence {
  import opened Numbers
  import opened Sequences
  import opened Domain
  import opened Planner
  import opened PlannerFacts
  import opened Tracker
  import opened TrackerFacts

  /** What stays fixed: the side, the unsigned goal, the book and both configurations. */
  datatype Scene = Scene(
    cfg: Config, stopCfg: StopConfig, long: bool, goal: real, stopDistance: real, book: Book, recentVolume: real,
    urgent: bool, basePrice: real, now: Time, newId: int)

  /** What moves: the unsigned holding, the resting stops and the tracker's state. */
  datatype Desk = Desk(held: real, stops: seq<OpenOrder>, tracked: Position)

  function AccountOf(s: Scene, d: Desk): Account {
    Account(0.0, if s.long then d.held else 0.0, if s.long then 0.0 else -d.held, s.basePrice, d.stops, false, s.now)
  }

  ghost function PositionOf(s: Scene, d: Desk): Position {
    Observed(s.stopCfg, d.tracked, s.now, AccountOf(s, d), s.book)
  }

  ghost function InputOf(s: Scene, d: Desk): Input {
    Input(s.now, AccountOf(s, d), NO_TARGET.(quantity := OnSide(s.goal, s.long), stopDistance := s.stopDistance),
          PositionOf(s, d), s.book, s.recentVolume, s.urgent)
  }

  ghost function PlanOf(s: Scene, d: Desk): Plan {
    Decide(s.cfg, InputOf(s, d))
  }

  /** One tick: reconcile, plan, execute; a working order fills at once, a stop rests, a cancellation succeeds. */
  ghost function Tick(s: Scene, d: Desk): Desk {
    var p := PositionOf(s, d);
    match PlanOf(s, d)
    case NoAction(_) => d
    case Cancel(ids) => d.(stops := Filter(d.stops, (o: OpenOrder) => o.id !in ids), tracked := p)
    case Submit(i) =>
      if i.protective then d.(stops := d.stops + [Resting(i, s.newId, s.now)], tracked := p)
      else if IsOpening(i) then Desk(d.held + i.quantity, d.stops, Armed(s.stopCfg, p, i.stopDistance, s.now))
      else d.(held := Max(0.0, d.held - i.quantity), tracked := p)
  }

  ghost function Settle(s: Scene, d: Desk, ticks: nat): Desk
    decreases ticks
  {
    if ticks == 0 || PlanOf(s, d).NoAction? then d else Settle(s, Tick(s, d), ticks - 1)
  }

  /** Every cap leaves room for a child of the minimum size. */
  ghost predicate RoomyCaps(s: Scene)
    requires s.book.Valid()
  {
    forall c :: c in Caps(s.cfg, s.book, s.recentVolume) ==>
         c >= s.cfg.minQuantity && RoundDown(c, s.cfg.quantityStep) >= s.cfg.minQuantity
  }

  ghost predicate ValidScene(s: Scene) {
    && s.cfg.Scaled() && s.book.Valid()
    && 0.0 < s.stopCfg.minimumFraction < 1.0 && s.stopDistance < 1.0
    && s.stopCfg.stopGroupId == s.cfg.stopGroupId
  }

  /** The tracker is flat, or follows a position on this side with a live stop. */
  predicate Tracking(s: Scene, p: Position) {
    p.pendingStopFraction < 1.0
    && (Abs(p.quantity) <= QUANTITY_TOLERANCE || (Holds(p, s.long) && p.stopPrice > 0.0))
  }

  predicate ValidDesk(s: Scene, d: Desk) {
    d.held >= 0.0 && Tracking(s, d.tracked) && forall o :: o in d.stops ==> o.gid == s.cfg.stopGroupId
  }

  // ---- The tracker along the way ----------------------------------------------------------------

  lemma TrailedTwice(cfg: StopConfig, p: Position, price: real)
    ensures Trailed(cfg, Trailed(cfg, p, price), price) == Trailed(cfg, p, price)
  {
    hide RewardR, TrailingCandidate, RiskDistance;
  }

  /** A new position opened from a fraction below one has a live stop. */
  lemma OpenedStopIsLive(s: Scene, p: Position, q: real, entry: real)
    requires ValidScene(s) && p.pendingStopFraction < 1.0 && entry > 0.0
    ensures Opened(s.stopCfg, p, s.now, q, entry).stopPrice > 0.0
  {
    var f := Max(StopFraction(s.stopCfg, p), s.stopCfg.minimumFraction);
    MulStrict(0.0, 1.0 - f, entry);
    MulStrict(0.0, 1.0 + f, entry);
  }

  /** After reconciling, the tracked quantity is the holding (or zero for dust) and its stop is live. */
  lemma Reconciled(s: Scene, d: Desk)
    requires ValidScene(s) && ValidDesk(s, d)
    ensures var p := PositionOf(s, d);
      && Tracking(s, p)
      && (if d.held > QUANTITY_TOLERANCE then p.quantity == OnSide(d.held, s.long) && p.stopPrice > 0.0
          else p.quantity == 0.0)
  {
    hide Trailed, Opened, Resized;
    var a := AccountOf(s, d);
    var q, mid := CurrentQuantity(a), s.book.Mid();
    if d.held > QUANTITY_TOLERANCE {
      var carried := Carried(s.stopCfg, d.tracked, s.now, a, mid);
      if Reopens(d.tracked, q) {
        OpenedStopIsLive(s, d.tracked, q, EntryPrice(a, q, mid));
        OpenedFrame(s.stopCfg, d.tracked, s.now, q, EntryPrice(a, q, mid));
      } else {
        ResizeNeverLoosens(s.stopCfg, d.tracked, s.now, q, a, mid);
        ResizedFrame(s.stopCfg, d.tracked, s.now, q, a, mid);
      }
      TrailNeverLoosens(s.stopCfg, carried, mid);
      TrailedFrame(s.stopCfg, carried, mid);
    }
  }

  lemma OpenedFrame(cfg: StopConfig, p: Position, now: Time, q: real, entry: real)
    ensures Opened(cfg, p, now, q, entry).quantity == q && Opened(cfg, p, now, q, entry).pendingStopFraction == 0.0
  {
    hide StopAt;
  }

  lemma ResizedFrame(cfg: StopConfig, p: Position, now: Time, q: real, a: Account, mid: real)
    requires q != 0.0 && p.pendingStopFraction < 1.0
    ensures Resized(cfg, p, now, q, a, mid).pendingStopFraction < 1.0
    ensures !Grows(p, q) ==> Resized(cfg, p, now, q, a, mid) == p.(quantity := q, updatedAt := now)
  {
    hide StopAt, Blend;
  }

  lemma TrailedFrame(cfg: StopConfig, p: Position, price: real)
    ensures Trailed(cfg, p, price).pendingStopFraction == p.pendingStopFraction
    ensures Trailed(cfg, p, price).quantity == p.quantity
  {
    hide RewardR, TrailingCandidate, RiskDistance;
  }

  /** Reconciling again with the holding unchanged leaves quantity and stop as they are. */
  lemma ReconciledTwice(s: Scene, d: Desk, stops: seq<OpenOrder>)
    requires ValidScene(s) && ValidDesk(s, d)
    ensures var p := PositionOf(s, d);
      PositionOf(s, Desk(d.held, stops, p)).quantity == p.quantity
      && PositionOf(s, Desk(d.held, stops, p)).stopPrice == p.stopPrice
  {
    hide Trailed, Opened, Resized;
    var a := AccountOf(s, d);
    var q, mid := CurrentQuantity(a), s.book.Mid();
    Reconciled(s, d);
    if d.held > QUANTITY_TOLERANCE {
      var carried := Carried(s.stopCfg, d.tracked, s.now, a, mid);
      var p, d' := PositionOf(s, d), Desk(d.held, stops, PositionOf(s, d));
      TrailedTwice(s.stopCfg, carried, mid);
      TrailedFrame(s.stopCfg, carried, mid);
      ResizedFrame(s.stopCfg, p, s.now, q, AccountOf(s, d'), mid);
      TrailedFrame(s.stopCfg, p.(quantity := q, updatedAt := s.now), mid);
      TrailIgnores(s.stopCfg, Trailed(s.stopCfg, carried, mid), p.(quantity := q, updatedAt := s.now), mid);
    }
  }

  /** Trailing looks only at the quantity, entry, fraction, best price and stop. */
  lemma TrailIgnores(cfg: StopConfig, p: Position, p': Position, price: real)
    requires p.quantity == p'.quantity && p.averageEntry == p'.averageEntry && p.bestPrice == p'.bestPrice
    requires p.initialStopFraction == p'.initialStopFraction && p.stopPrice == p'.stopPrice
    ensures Trailed(cfg, p, price).stopPrice == Trailed(cfg, p', price).stopPrice
  {
    hide RewardR, TrailingCandidate, RiskDistance;
  }

  // ---- What the planner does along the way --------------------------------------------------------

  function OpenVenue(s: Scene): Venue {
    if s.long then Spot else Margin
  }

  lemma OnlyStops(s: Scene, d: Desk)
    requires ValidScene(s) && ValidDesk(s, d)
    ensures Filter(d.stops, InGroup(s.cfg.groupId)) == []
    ensures Filter(d.stops, InGroup(s.cfg.stopGroupId)) == d.stops
  {
    FilterNone(d.stops, InGroup(s.cfg.groupId));
    FilterAll(d.stops, InGroup(s.cfg.stopGroupId));
  }

  ghost function Protection(s: Scene, d: Desk): Plan {
    Protective(s.cfg, PositionOf(s, d), d.stops)
  }

  ghost function BuildChild(s: Scene, d: Desk): Plan {
    Child(s.cfg, InputOf(s, d), OpenVenue(s), if s.long then Buy else Sell, s.goal - d.held)
  }

  /** The planner's three tests while building. */
  lemma BuildTests(s: Scene, d: Desk)
    requires ValidScene(s) && ValidDesk(s, d) && s.goal > s.cfg.tolerance && d.held <= s.goal + 1e-9
    ensures var inp := InputOf(s, d);
      && (NeedsStopCancellation(inp.target.quantity, inp.account) <==> d.held < 1e-9)
      && (ShouldProtectDuringBuild(inp) <==> d.held > QUANTITY_TOLERANCE)
      && NextMove(s.cfg, inp.target.quantity, inp.account) ==
         if s.goal - d.held > s.cfg.tolerance
         then Move(OpenVenue(s), if s.long then Buy else Sell, s.goal - d.held) else OnTarget
  {
    hide Observed;
    Reconciled(s, d);
  }

  /** While building, a tick clears orphaned stops, then corrects the protection, then adds a child. */
  lemma BuildPlan(s: Scene, d: Desk)
    requires ValidScene(s) && ValidDesk(s, d) && s.goal > s.cfg.tolerance && d.held <= s.goal + 1e-9
    ensures PlanOf(s, d) ==
      if d.stops != [] && d.held < 1e-9 then Cancel(Sorted(Ids(d.stops)))
      else if d.held > QUANTITY_TOLERANCE && !Protection(s, d).NoAction? then Protection(s, d)
      else if s.goal - d.held > s.cfg.tolerance then BuildChild(s, d)
      else Protection(s, d)
  {
    hide Child, Protective, Observed, Stale, Sorted, Ids, NeedsStopCancellation, NextMove,
         ShouldProtectDuringBuild;
    BuildTests(s, d);
    OnlyStops(s, d);
  }

  ghost function FlattenChild(s: Scene, d: Desk): Plan {
    Child(s.cfg, InputOf(s, d), OpenVenue(s), if s.long then Sell else Buy, d.held)
  }

  /** The planner's tests while flattening. */
  lemma FlattenTests(s: Scene, d: Desk)
    requires ValidScene(s) && ValidDesk(s, d) && s.goal == 0.0
    ensures var inp := InputOf(s, d);
      && NeedsStopCancellation(inp.target.quantity, inp.account)
      && !ShouldProtectDuringBuild(inp)
      && NextMove(s.cfg, inp.target.quantity, inp.account) ==
         if d.held > s.cfg.tolerance then Move(OpenVenue(s), if s.long then Sell else Buy, d.held) else Flat
  {
    hide Observed;
    Reconciled(s, d);
  }

  /** While flattening, a tick clears every stop first and then sells down; it never protects again. */
  lemma FlattenPlan(s: Scene, d: Desk)
    requires ValidScene(s) && ValidDesk(s, d) && s.goal == 0.0
    ensures PlanOf(s, d) ==
      if d.stops != [] then Cancel(Sorted(Ids(d.stops)))
      else if d.held > s.cfg.tolerance then FlattenChild(s, d)
      else NoAction(AlreadyFlat)
  {
    hide Child, Protective, Observed, Stale, Sorted, Ids, NextMove, ShouldProtectDuringBuild;
    FlattenTests(s, d);
    OnlyStops(s, d);
  }

  /** With roomy caps a child is refused only when less than a minimum plus one step is wanted. */
  lemma ChildUnlessSmall(s: Scene, d: Desk, venue: Venue, side: Side, want: real)
    requires ValidScene(s) && RoomyCaps(s) && want > 0.0
    ensures Child(s.cfg, InputOf(s, d), venue, side, want).Submit?
            || (Child(s.cfg, InputOf(s, d), venue, side, want) == NoAction(BelowMinimum)
                && want < s.cfg.minQuantity + s.cfg.quantityStep)
  {
    hide RoundDown, RoundPrice, ChildPrice, Caps, Observed, Decide;
    var inp := InputOf(s, d);
    var limits := [want] + Caps(s.cfg, s.book, s.recentVolume);
    var capped := Capped(s.cfg, inp, want);
    RoundDownBounds(want, s.cfg.quantityStep);
    assert capped in limits;
    if capped != want {
      assert capped in Caps(s.cfg, s.book, s.recentVolume);
    }
  }

  // ---- The measure --------------------------------------------------------------------------------

  /** How many children of the minimum size still fit into a distance. */
  ghost function Children(s: Scene, room: real): nat
    requires s.cfg.minQuantity > 0.0
  {
    if room < 0.0 then 0 else NonNegativeFloor(room / s.cfg.minQuantity)
  }

  function NonNegativeFloor(x: real): nat {
    if x < 0.0 then 0 else Floor(x)
  }

  lemma ChildUsesOne(s: Scene, room: real, q: real)
    requires 0.0 < s.cfg.minQuantity <= q <= room
    ensures Children(s, room - q) < Children(s, room)
  {
    QuotientGap(room - q, room, s.cfg.minQuantity);
  }

  /** Protective work left at this holding: withdraw and replace, or place, or nothing. */
  ghost function Stage(s: Scene, d: Desk): nat {
    if d.held < 1e-9 then (if d.stops != [] then 1 else 0)
    else if d.held <= QUANTITY_TOLERANCE then 0
    else match Protection(s, d) case Cancel(_) => 2 case Submit(_) => 1 case NoAction(_) => 0
  }

  ghost predicate Building(s: Scene, d: Desk) {
    ValidScene(s) && ValidDesk(s, d) && s.goal > s.cfg.tolerance && d.held <= s.goal + 1e-9
  }

  ghost function BuildTicks(s: Scene, d: Desk): nat
    requires Building(s, d)
  {
    3 * Children(s, s.goal + SLACK - d.held) + Stage(s, d)
  }

  lemma CancelAll(s: Scene, d: Desk)
    requires PlanOf(s, d) == Cancel(Sorted(Ids(d.stops)))
    ensures Tick(s, d) == Desk(d.held, [], PositionOf(s, d))
  {
    hide Decide, Observed;
    var ids := Sorted(Ids(d.stops));
    SameElements(ids, Ids(d.stops));
    forall o | o in d.stops ensures o.id in ids {
      var k :| 0 <= k < |d.stops| && d.stops[k] == o;
      assert Ids(d.stops)[k] in Ids(d.stops);
    }
    FilterNone(d.stops, (o: OpenOrder) => o.id !in ids);
  }

  /** Withdrawing the stops leaves at most a placement to do; placing one leaves nothing. */
  lemma ProtectionAdvances(s: Scene, d: Desk)
    requires ValidScene(s) && ValidDesk(s, d) && d.held > QUANTITY_TOLERANCE
    requires PlanOf(s, d) == Protection(s, d) && !Protection(s, d).NoAction?
    ensures Tick(s, d).held == d.held && ValidDesk(s, Tick(s, d))
    ensures Stage(s, Tick(s, d)) < Stage(s, d)
  {
    hide Decide, Observed, RoundDown, RoundPrice, OutOfDate;
    var p, d' := PositionOf(s, d), Tick(s, d);
    Reconciled(s, d);
    if Protection(s, d).Cancel? {
      CancelAll(s, d);
    } else {
      FreshStopIsFixpoint(s.cfg, p, s.newId, s.now);
      assert d'.stops == [Resting(Protection(s, d).intent, s.newId, s.now)];
    }
    ReconciledTwice(s, d, d'.stops);
    SameProtection(s.cfg, p, PositionOf(s, d'), d'.stops);
  }

  /** Protection depends on the position only through its quantity and stop. */
  lemma SameProtection(cfg: Config, p: Position, p': Position, stops: seq<OpenOrder>)
    requires p.quantity == p'.quantity && p.stopPrice == p'.stopPrice
    ensures Protective(cfg, p, stops) == Protective(cfg, p', stops)
  {
    hide RoundDown, RoundPrice;
    assert forall o :: OutOfDate(cfg, p, o) == OutOfDate(cfg, p', o);
  }

  lemma BuildTickProgress(s: Scene, d: Desk)
    requires Building(s, d) && !PlanOf(s, d).NoAction?
    ensures Building(s, Tick(s, d)) && BuildTicks(s, Tick(s, d)) < BuildTicks(s, d)
  {
    hide Decide, Observed, Children, Stage, Child;
    BuildPlan(s, d);
    Reconciled(s, d);
    var d' := Tick(s, d);
    if d.stops != [] && d.held < 1e-9 {
      CancelAll(s, d);
      StageOfDust(s, d);
      StageOfDust(s, d');
    } else if d.held > QUANTITY_TOLERANCE && !Protection(s, d).NoAction? {
      ProtectionAdvances(s, d);
    } else {
      assert PlanOf(s, d) == BuildChild(s, d) by { DustNeedsNoProtection(s, d); }
      AddedChild(s, d);
      StageBound(s, d');
    }
  }

  lemma StageOfDust(s: Scene, d: Desk)
    requires d.held < 1e-9
    ensures Stage(s, d) == if d.stops != [] then 1 else 0
  {
    hide Protection;
  }

  lemma StageBound(s: Scene, d: Desk)
    ensures Stage(s, d) <= 2
  {
    hide Protection;
  }

  lemma DustNeedsNoProtection(s: Scene, d: Desk)
    requires ValidScene(s) && ValidDesk(s, d)
    requires d.held <= QUANTITY_TOLERANCE || Protection(s, d).NoAction?
    ensures Protection(s, d).NoAction?
  {
    hide Observed, RoundDown;
    Reconciled(s, d);
  }

  /** A filled child stays within the goal and uses up at least one minimum-size child. */
  lemma AddedChild(s: Scene, d: Desk)
    requires Building(s, d) && PlanOf(s, d) == BuildChild(s, d) && !BuildChild(s, d).NoAction?
    ensures Building(s, Tick(s, d))
    ensures Children(s, s.goal + SLACK - Tick(s, d).held) < Children(s, s.goal + SLACK - d.held)
  {
    hide Decide, Observed, Children, RoundDown, RoundPrice, Capped, WithinCaps, IsMultiple, ChildPrice;
    var inp := InputOf(s, d);
    Reconciled(s, d);
    ChildBounds(s.cfg, inp, OpenVenue(s), if s.long then Buy else Sell, s.goal - d.held);
    var q := BuildChild(s, d).intent.quantity;
    ChildUsesOne(s, s.goal + SLACK - d.held, q);
    assert Tick(s, d).held == d.held + q;
    assert s.goal + SLACK - (d.held + q) == s.goal + SLACK - d.held - q;
  }

  // ---- The two convergence theorems ---------------------------------------------------------------

  /** The stop rests for the position's size within two steps, at its stop price within one and a half. */
  predicate Covers(cfg: Config, p: Position, o: OpenOrder) {
    && -2.0 * cfg.quantityStep <= Abs(o.remaining) - Abs(p.quantity) <= 2.0 * cfg.quantityStep
    && -1.5 * cfg.priceStep <= o.price - p.stopPrice <= 1.5 * cfg.priceStep
  }

  /** Every resting stop matches the tracked position, unless stops are off or the position is too small for one. */
  ghost predicate Protected(s: Scene, d: Desk) {
    var p := PositionOf(s, d);
    s.cfg.protectiveStops && d.held > s.cfg.tolerance && d.held > QUANTITY_TOLERANCE
    && RoundDown(d.held, s.cfg.quantityStep) >= s.cfg.minQuantity ==>
      d.stops != [] && forall o :: o in d.stops ==> Covers(s.cfg, p, o)
  }

  lemma RestAfterBuild(s: Scene, d: Desk)
    requires Building(s, d) && PlanOf(s, d).NoAction?
    ensures Protected(s, d)
    ensures RoomyCaps(s) ==>
      s.goal - d.held <= s.cfg.tolerance || s.goal - d.held < s.cfg.minQuantity + s.cfg.quantityStep
  {
    hide RoomyCaps, Decide, Observed, RoundDown, Child;
    BuildPlan(s, d);
    Reconciled(s, d);
    if RoomyCaps(s) && s.goal - d.held > s.cfg.tolerance {
      ChildUnlessSmall(s, d, OpenVenue(s), if s.long then Buy else Sell, s.goal - d.held);
    }
  }

  /**
   * Building converges: within three ticks per remaining minimum-size child, plus the protective work at hand,
   * the loop comes to rest with the whole holding covered by a stop that needs no refresh; unless a cap leaves no
   * room for a child, it is short of the goal by less than a minimum and a step, or within tolerance.
   */
  lemma {:induction false} BuildConverges(s: Scene, d: Desk, ticks: nat)
    requires Building(s, d) && ticks >= BuildTicks(s, d)
    ensures var end := Settle(s, d, ticks);
      && Building(s, end) && PlanOf(s, end).NoAction? && Protected(s, end) && d.held <= end.held
      && (RoomyCaps(s) ==>
            s.goal - end.held <= s.cfg.tolerance || s.goal - end.held < s.cfg.minQuantity + s.cfg.quantityStep)
    decreases ticks
  {
    hide RoomyCaps, Decide, Observed, Children, Stage, Protected, Tick;
    if PlanOf(s, d).NoAction? {
      RestAfterBuild(s, d);
    } else {
      BuildTickProgress(s, d);
      HoldingGrows(s, d);
      BuildConverges(s, Tick(s, d), ticks - 1);
    }
  }

  lemma HoldingGrows(s: Scene, d: Desk)
    requires Building(s, d)
    ensures Tick(s, d).held >= d.held
  {
    hide Decide, Observed, RoundDown, RoundPrice, Capped, ChildPrice, OutOfDate;
    BuildPlan(s, d);
    if PlanOf(s, d).Submit? && !PlanOf(s, d).intent.protective {
      ChildBounds(s.cfg, InputOf(s, d), OpenVenue(s), if s.long then Buy else Sell, s.goal - d.held);
    }
  }

  ghost predicate Flattening(s: Scene, d: Desk) {
    ValidScene(s) && ValidDesk(s, d) && s.goal == 0.0
  }

  ghost function FlattenTicks(s: Scene, d: Desk): nat
    requires Flattening(s, d)
  {
    Children(s, d.held + SLACK) + if d.stops != [] then 1 else 0
  }

  lemma FlattenTickProgress(s: Scene, d: Desk)
    requires Flattening(s, d) && !PlanOf(s, d).NoAction?
    ensures Flattening(s, Tick(s, d)) && FlattenTicks(s, Tick(s, d)) < FlattenTicks(s, d)
    ensures Tick(s, d).held <= d.held
  {
    hide Decide, Observed, Children, RoundDown, RoundPrice, Capped, WithinCaps, IsMultiple, ChildPrice;
    FlattenPlan(s, d);
    Reconciled(s, d);
    if d.stops != [] {
      CancelAll(s, d);
    } else {
      ChildBounds(s.cfg, InputOf(s, d), OpenVenue(s), if s.long then Sell else Buy, d.held);
      var q := FlattenChild(s, d).intent.quantity;
      ChildUsesOne(s, d.held + SLACK, q);
      assert Tick(s, d).held == Max(0.0, d.held - q);
      if d.held - q < 0.0 {
        RoomOfSlack(s, d.held, q);
      } else {
        assert d.held - q + SLACK == d.held + SLACK - q;
      }
    }
  }

  /** Selling the last of a holding, rounding included, leaves no room for another child. */
  lemma RoomOfSlack(s: Scene, held: real, q: real)
    requires SLACK < s.cfg.minQuantity <= q <= held + SLACK
    ensures Children(s, 0.0 + SLACK) < Children(s, held + SLACK)
  {
    var m := s.cfg.minQuantity;
    ChildUsesOne(s, held + SLACK, m);
    assert SLACK / m < 1.0 by {
      var x := SLACK / m;
      assert x * m == SLACK;
      if x >= 1.0 {
        MulMonotone(1.0, x, m);
      }
    }
  }

  /**
   * Flattening converges with every stop withdrawn, and to less than a minimum and a step, or within tolerance, unless
   * a cap leaves no room for a child.
   */
  lemma {:induction false} FlattenConverges(s: Scene, d: Desk, ticks: nat)
    requires Flattening(s, d) && ticks >= FlattenTicks(s, d)
    ensures var end := Settle(s, d, ticks);
      && Flattening(s, end) && PlanOf(s, end).NoAction? && end.stops == [] && end.held <= d.held
      && (RoomyCaps(s) ==> end.held <= s.cfg.tolerance || end.held < s.cfg.minQuantity + s.cfg.quantityStep)
    decreases ticks
  {
    hide RoomyCaps, Decide, Observed, Children, Tick, Child;
    if PlanOf(s, d).NoAction? {
      FlattenPlan(s, d);
      if RoomyCaps(s) && d.held > s.cfg.tolerance {
        ChildUnlessSmall(s, d, OpenVenue(s), if s.long then Sell else Buy, d.held);
      }
    } else {
      FlattenTickProgress(s, d);
      FlattenConverges(s, Tick(s, d), ticks - 1);
    }
  }
}
