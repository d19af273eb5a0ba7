/**
 * The closed loop while the fixed target is smaller than the holding: it sells whole-step children toward the target
 * and then comes to rest, unless the remainder lies where stop cancellation and re-protection undo each other.
 */
module Reduction {
  import opened Numbers
  import opened Sequences
  import opened Domain
  import opened Planner
  import opened PlannerFacts
  import opened Tracker
  import opened Convergence

  /** A desk of a scene with a target on the side held, but none of the size held. */
  ghost predicate Aimed(s: Scene, d: Desk) {
    ValidScene(s) && ValidDesk(s, d) && s.goal > 0.0
  }

  function Excess(s: Scene, d: Desk): real {
    d.held - s.goal
  }

  /** A protective stop for this holding can be placed. */
  predicate StopFits(s: Scene, held: real) {
    && s.cfg.protectiveStops && held > s.cfg.tolerance && held > QUANTITY_TOLERANCE
    && RoundDown(held, s.cfg.quantityStep) >= s.cfg.minQuantity
  }

  /** What stop cancellation considers a reduction and order planning considers on target. */
  predicate Flickers(s: Scene, d: Desk) {
    s.goal > s.cfg.tolerance && 1e-9 < Excess(s, d) <= s.cfg.tolerance && StopFits(s, d.held)
  }

  ghost predicate Rests(s: Scene, d: Desk) {
    exists ticks: nat :: PlanOf(s, Settle(s, d, ticks)).NoAction?
  }

  /** An acting tick changes nothing about whether the loop comes to rest. */
  lemma RestsAfterTick(s: Scene, d: Desk)
    requires !PlanOf(s, d).NoAction?
    ensures Rests(s, d) <==> Rests(s, Tick(s, d))
  {
    hide PlanOf, Tick;
    if ticks: nat :| PlanOf(s, Settle(s, d, ticks)).NoAction? {
      assert ticks > 0;
      assert PlanOf(s, Settle(s, Tick(s, d), ticks - 1)).NoAction?;
    }
    if ticks: nat :| PlanOf(s, Settle(s, Tick(s, d), ticks)).NoAction? {
      assert PlanOf(s, Settle(s, d, ticks + 1)).NoAction?;
    }
  }

  lemma RestingRests(s: Scene, d: Desk)
    requires PlanOf(s, d).NoAction?
    ensures Rests(s, d)
  {
    hide PlanOf;
    assert Settle(s, d, 0) == d;
  }

  // ---- Selling toward the target ------------------------------------------------------------------

  ghost function SellChild(s: Scene, d: Desk, want: real): Plan {
    Child(s.cfg, InputOf(s, d), OpenVenue(s), if s.long then Sell else Buy, want)
  }

  lemma ChildNeverCancels(s: Scene, d: Desk, want: real)
    ensures !SellChild(s, d, want).Cancel?
  {
    hide RoundDown, RoundPrice, Capped, ChildPrice, Observed;
  }

  /** The planner's tests while more than 1e-9 above a target outside the tolerance. */
  lemma TrimTests(s: Scene, d: Desk)
    requires Aimed(s, d) && s.goal > s.cfg.tolerance && Excess(s, d) > 1e-9
    ensures var inp := InputOf(s, d);
      && NeedsStopCancellation(inp.target.quantity, inp.account)
      && !ShouldProtectDuringBuild(inp)
      && NextMove(s.cfg, inp.target.quantity, inp.account) ==
         if Excess(s, d) > s.cfg.tolerance
         then Move(OpenVenue(s), if s.long then Sell else Buy, Excess(s, d)) else OnTarget
  {
    hide Observed;
  }

  /** There a tick withdraws every stop, then sells down, and within the tolerance protects again. */
  lemma TrimPlan(s: Scene, d: Desk)
    requires Aimed(s, d) && s.goal > s.cfg.tolerance && Excess(s, d) > 1e-9
    ensures PlanOf(s, d) ==
      if d.stops != [] then Cancel(Sorted(Ids(d.stops)))
      else if Excess(s, d) > s.cfg.tolerance then SellChild(s, d, Excess(s, d))
      else Protection(s, d)
  {
    hide Child, Protective, Observed, Stale, Sorted, Ids, NeedsStopCancellation, NextMove,
         ShouldProtectDuringBuild;
    TrimTests(s, d);
    OnlyStops(s, d);
  }

  /** No whole-step child is left to sell. */
  ghost predicate Sold(s: Scene, d: Desk) {
    || s.goal <= s.cfg.tolerance || Excess(s, d) <= s.cfg.tolerance
    || (d.stops == [] && SellChild(s, d, Excess(s, d)).NoAction?)
  }

  ghost function SellTicks(s: Scene, d: Desk): nat
    requires s.cfg.minQuantity > 0.0
  {
    Children(s, Excess(s, d) + SLACK) + if d.stops != [] then 1 else 0
  }

  /** The loop until nothing is left to sell. */
  ghost function SellDown(s: Scene, d: Desk, ticks: nat): Desk
    decreases ticks
  {
    if ticks == 0 || Sold(s, d) then d else SellDown(s, Tick(s, d), ticks - 1)
  }

  lemma SoldChildProgress(s: Scene, d: Desk)
    requires Aimed(s, d) && s.goal > s.cfg.tolerance && Excess(s, d) > s.cfg.tolerance && d.stops == []
    requires SellChild(s, d, Excess(s, d)).Submit?
    ensures var e := Tick(s, d);
      && Aimed(s, e) && e.stops == [] && s.goal - SLACK <= e.held <= d.held && SellTicks(s, e) < SellTicks(s, d)
  {
    hide Decide, Observed, Children, RoundDown, RoundPrice, Capped, WithinCaps, IsMultiple, ChildPrice;
    TrimPlan(s, d);
    Reconciled(s, d);
    ChildBounds(s.cfg, InputOf(s, d), OpenVenue(s), if s.long then Sell else Buy, Excess(s, d));
    var q := SellChild(s, d, Excess(s, d)).intent.quantity;
    ChildUsesOne(s, Excess(s, d) + SLACK, q);
    assert Tick(s, d).held == d.held - q;
    assert Excess(s, Tick(s, d)) + SLACK == Excess(s, d) + SLACK - q;
  }

  lemma WithdrawnProgress(s: Scene, d: Desk)
    requires Aimed(s, d) && s.goal > s.cfg.tolerance && Excess(s, d) > 1e-9 && d.stops != []
    ensures var e := Tick(s, d);
      && PlanOf(s, d).Cancel? && Aimed(s, e) && e.stops == [] && e.held == d.held && SellTicks(s, e) < SellTicks(s, d)
  {
    hide Decide, Observed, Children, Child, RoundDown;
    TrimPlan(s, d);
    Reconciled(s, d);
    CancelAll(s, d);
  }

  /** Selling ends within its measure, never below the target, and decides alone whether the loop comes to rest. */
  lemma {:induction false} SellDownEnds(s: Scene, d: Desk, ticks: nat)
    requires Aimed(s, d) && d.held >= s.goal - SLACK && ticks >= SellTicks(s, d)
    ensures var e := SellDown(s, d, ticks);
      && Aimed(s, e) && Sold(s, e) && s.goal - SLACK <= e.held <= d.held && (Rests(s, d) <==> Rests(s, e))
    decreases ticks
  {
    hide Aimed, SellTicks, Tick, PlanOf, Rests, SellChild;
    if !Sold(s, d) {
      SellTick(s, d);
      RestsAfterTick(s, d);
      SellDownEnds(s, Tick(s, d), ticks - 1);
    }
  }

  lemma SellTick(s: Scene, d: Desk)
    requires Aimed(s, d) && !Sold(s, d)
    ensures var e := Tick(s, d);
      && !PlanOf(s, d).NoAction? && Aimed(s, e) && s.goal - SLACK <= e.held <= d.held
      && SellTicks(s, e) < SellTicks(s, d)
  {
    hide Decide, Observed, Children, Child, Tick, SellTicks;
    if d.stops != [] {
      WithdrawnProgress(s, d);
    } else {
      TrimPlan(s, d);
      ChildNeverCancels(s, d, Excess(s, d));
      SoldChildProgress(s, d);
    }
  }

  // ---- The remainder in figures -------------------------------------------------------------------

  /** What one child sells of an excess, before the minimum is tested. */
  function ChildOf(s: Scene, x: real): real
    requires s.book.Valid()
  {
    RoundDown(Least([x] + Caps(s.cfg, s.book, s.recentVolume)), s.cfg.quantityStep)
  }

  /** The excess is too small for a child, by the tolerance or by either test of the minimum. */
  predicate Unsellable(s: Scene, x: real)
    requires s.book.Valid()
  {
    || x <= s.cfg.tolerance
    || Least([x] + Caps(s.cfg, s.book, s.recentVolume)) < s.cfg.minQuantity || ChildOf(s, x) < s.cfg.minQuantity
  }

  /** What selling leaves of an excess, from the caps, the step, the minimum and the tolerance alone. */
  function Remainder(s: Scene, x: real): real
    requires s.book.Valid() && s.cfg.Scaled()
    decreases NonNegativeFloor((x + SLACK) / s.cfg.minQuantity)
  {
    if Unsellable(s, x) then x
    else
      ChildShrinks(s, x);
      Remainder(s, x - ChildOf(s, x))
  }

  lemma ChildShrinks(s: Scene, x: real)
    requires s.book.Valid() && s.cfg.Scaled() && !Unsellable(s, x)
    ensures s.cfg.minQuantity <= ChildOf(s, x) <= x + SLACK
    ensures NonNegativeFloor((x - ChildOf(s, x) + SLACK) / s.cfg.minQuantity)
          < NonNegativeFloor((x + SLACK) / s.cfg.minQuantity)
  {
    hide RoundDown, Caps;
    var limits := [x] + Caps(s.cfg, s.book, s.recentVolume);
    assert limits[0] in limits;
    RoundDownBounds(Least(limits), s.cfg.quantityStep);
    ShrinksByOne(x + SLACK, ChildOf(s, x), s.cfg.minQuantity);
  }

  lemma ShrinksByOne(room: real, q: real, m: real)
    requires 0.0 < m <= q <= room
    ensures NonNegativeFloor((room - q) / m) < NonNegativeFloor(room / m)
  {
    QuotientGap(room - q, room, m);
    DivMonotone(0.0, room - q, m);
    assert 0.0 / m == 0.0;
  }

  /** The planned child is that child. */
  lemma SellChildIs(s: Scene, d: Desk, x: real)
    requires ValidScene(s) && x > s.cfg.tolerance
    ensures if Unsellable(s, x) then SellChild(s, d, x).NoAction?
            else SellChild(s, d, x).Submit? && SellChild(s, d, x).intent.quantity == ChildOf(s, x)
  {
    hide RoundDown, RoundPrice, ChildPrice, Caps, Observed;
  }

  /** Selling leaves exactly the remainder of the excess. */
  lemma {:induction false} SellDownLeaves(s: Scene, d: Desk, ticks: nat)
    requires Aimed(s, d) && s.goal > s.cfg.tolerance && d.held >= s.goal - SLACK && ticks >= SellTicks(s, d)
    ensures Excess(s, SellDown(s, d, ticks)) == Remainder(s, Excess(s, d))
    decreases ticks
  {
    hide ValidScene, ValidDesk, SellTicks, Tick, PlanOf, SellChild, Unsellable, ChildOf;
    SceneIsScaled(s);
    if Excess(s, d) > s.cfg.tolerance {
      SellChildIs(s, d, Excess(s, d));
    } else {
      SmallIsUnsellable(s, Excess(s, d));
    }
    if !Sold(s, d) {
      SellTick(s, d);
      if d.stops == [] {
        SoldChildTick(s, d);
      } else {
        KeptByWithdrawal(s, d);
      }
      SellDownLeaves(s, Tick(s, d), ticks - 1);
    } else if Excess(s, d) > s.cfg.tolerance {
      assert Unsellable(s, Excess(s, d));
    }
  }

  lemma SceneIsScaled(s: Scene)
    requires ValidScene(s)
    ensures s.cfg.Scaled() && s.book.Valid()
  {
  }

  lemma SmallIsUnsellable(s: Scene, x: real)
    requires s.book.Valid() && x <= s.cfg.tolerance
    ensures Unsellable(s, x)
  {
  }

  lemma KeptByWithdrawal(s: Scene, d: Desk)
    requires Aimed(s, d) && s.goal > s.cfg.tolerance && Excess(s, d) > s.cfg.tolerance && d.stops != []
    ensures Tick(s, d).held == d.held
  {
    hide Decide, Observed, Children, Child, RoundDown, SellTicks;
    WithdrawnProgress(s, d);
  }

  lemma SoldChildTick(s: Scene, d: Desk)
    requires Aimed(s, d) && s.goal > s.cfg.tolerance && Excess(s, d) > s.cfg.tolerance && d.stops == []
    requires SellChild(s, d, Excess(s, d)).Submit?
    ensures Excess(s, Tick(s, d)) == Excess(s, d) - SellChild(s, d, Excess(s, d)).intent.quantity
  {
    hide Decide, Observed, Children, RoundDown, RoundPrice, Capped, WithinCaps, IsMultiple, ChildPrice;
    TrimPlan(s, d);
    ChildBounds(s.cfg, InputOf(s, d), OpenVenue(s), if s.long then Sell else Buy, Excess(s, d));
  }

  // ---- Coming to rest -----------------------------------------------------------------------------

  /** Within the tolerance above the target a stop is placed exactly when one fits. */
  lemma ProtectsIffFits(s: Scene, d: Desk)
    requires ValidScene(s) && ValidDesk(s, d) && d.stops == []
    ensures if StopFits(s, d.held) then Protection(s, d).Submit? && Protection(s, d).intent.gid == s.cfg.stopGroupId
            else Protection(s, d).NoAction?
    ensures StopFits(s, d.held) ==> Protection(s, d).intent.protective
  {
    hide Observed, RoundDown, RoundPrice;
    Reconciled(s, d);
  }

  /** A flickering desk stays one, and never rests. */
  lemma FlickerTick(s: Scene, d: Desk)
    requires Aimed(s, d) && Flickers(s, d)
    ensures !PlanOf(s, d).NoAction? && Aimed(s, Tick(s, d)) && Flickers(s, Tick(s, d))
    ensures (d.stops == []) != (Tick(s, d).stops == [])
  {
    hide Decide, Observed, Child, RoundDown, SellTicks;
    if d.stops != [] {
      WithdrawnProgress(s, d);
    } else {
      TrimPlan(s, d);
      Reconciled(s, d);
      ProtectsIffFits(s, d);
    }
  }

  lemma {:induction false} FlickersForever(s: Scene, d: Desk, ticks: nat)
    requires Aimed(s, d) && Flickers(s, d)
    ensures !PlanOf(s, Settle(s, d, ticks)).NoAction?
    decreases ticks
  {
    hide Aimed, Flickers, PlanOf, Tick;
    FlickerTick(s, d);
    if ticks > 0 {
      FlickersForever(s, Tick(s, d), ticks - 1);
    }
  }

  lemma UnprotectableRests(s: Scene, d: Desk)
    requires Aimed(s, d) && s.goal > s.cfg.tolerance && 1e-9 < Excess(s, d) && Sold(s, d) && !Flickers(s, d)
    ensures Rests(s, d)
  {
    hide Decide, Observed, Child, RoundDown, SellTicks, Rests, StopFits;
    if d.stops != [] {
      WithdrawnProgress(s, d);
      var e := Tick(s, d);
      TrimPlan(s, e);
      ProtectsIffFits(s, e);
      RestsAfterTick(s, d);
      RestingRests(s, e);
    } else {
      TrimPlan(s, d);
      ProtectsIffFits(s, d);
      RestingRests(s, d);
    }
  }

  lemma OnTargetRests(s: Scene, d: Desk)
    requires Aimed(s, d) && s.goal > s.cfg.tolerance && Excess(s, d) <= 1e-9
    ensures Rests(s, d)
  {
    hide Decide, Observed, Settle;
    BuildConverges(s, d, BuildTicks(s, d));
    assert PlanOf(s, Settle(s, d, BuildTicks(s, d))).NoAction?;
  }

  // ---- A target inside the tolerance --------------------------------------------------------------

  /** The planner's tests for a target inside the tolerance, which it takes as flat but for its stops. */
  lemma SmallTests(s: Scene, d: Desk)
    requires Aimed(s, d) && s.goal <= s.cfg.tolerance
    ensures var inp := InputOf(s, d);
      && (NeedsStopCancellation(inp.target.quantity, inp.account) <==> d.held < 1e-9 || Excess(s, d) > 1e-9)
      && (ShouldProtectDuringBuild(inp) <==> d.held > QUANTITY_TOLERANCE && Excess(s, d) <= 1e-9)
      && NextMove(s.cfg, inp.target.quantity, inp.account) ==
         if d.held > s.cfg.tolerance then Move(OpenVenue(s), if s.long then Sell else Buy, d.held) else Flat
  {
    hide Observed;
    Reconciled(s, d);
  }

  lemma SmallPlan(s: Scene, d: Desk)
    requires Aimed(s, d) && s.goal <= s.cfg.tolerance
    ensures PlanOf(s, d) ==
      if d.stops != [] && (d.held < 1e-9 || Excess(s, d) > 1e-9) then Cancel(Sorted(Ids(d.stops)))
      else if d.held > QUANTITY_TOLERANCE && Excess(s, d) <= 1e-9 && !Protection(s, d).NoAction? then Protection(s, d)
      else if d.held > s.cfg.tolerance then SellChild(s, d, d.held)
      else NoAction(AlreadyFlat)
  {
    hide Child, Protective, Observed, Stale, Sorted, Ids, NeedsStopCancellation, NextMove,
         ShouldProtectDuringBuild;
    SmallTests(s, d);
    OnlyStops(s, d);
  }

  ghost function SmallTicks(s: Scene, d: Desk): nat
    requires s.cfg.minQuantity > 0.0
  {
    3 * Children(s, d.held + SLACK)
    + if Excess(s, d) > 1e-9 then (if d.stops != [] then 1 else 0) else Stage(s, d)
  }

  lemma SmallTick(s: Scene, d: Desk)
    requires Aimed(s, d) && s.goal <= s.cfg.tolerance && !PlanOf(s, d).NoAction?
    ensures Aimed(s, Tick(s, d)) && SmallTicks(s, Tick(s, d)) < SmallTicks(s, d)
  {
    hide Decide, Observed, Children, Stage, Child, Tick, RoundDown;
    SmallPlan(s, d);
    Reconciled(s, d);
    var e := Tick(s, d);
    if d.stops != [] && (d.held < 1e-9 || Excess(s, d) > 1e-9) {
      CancelAll(s, d);
      if Excess(s, d) <= 1e-9 {
        StageOfDust(s, d);
        StageOfDust(s, e);
      }
    } else if d.held > QUANTITY_TOLERANCE && Excess(s, d) <= 1e-9 && !Protection(s, d).NoAction? {
      ProtectionAdvances(s, d);
    } else {
      ChildNeverCancels(s, d, d.held);
      WholeSale(s, d);
      StageBound(s, e);
    }
  }

  /** A child of a whole holding uses up at least one minimum-size child. */
  lemma WholeSale(s: Scene, d: Desk)
    requires Aimed(s, d) && PlanOf(s, d) == SellChild(s, d, d.held) && PlanOf(s, d).Submit?
    ensures Aimed(s, Tick(s, d)) && Children(s, Tick(s, d).held + SLACK) < Children(s, d.held + SLACK)
  {
    hide Decide, Observed, Children, RoundDown, RoundPrice, Capped, WithinCaps, IsMultiple, ChildPrice;
    Reconciled(s, d);
    ChildBounds(s.cfg, InputOf(s, d), OpenVenue(s), if s.long then Sell else Buy, d.held);
    var q := SellChild(s, d, d.held).intent.quantity;
    ChildUsesOne(s, d.held + SLACK, q);
    assert Tick(s, d).held == Max(0.0, d.held - q);
    if d.held - q < 0.0 {
      RoomOfSlack(s, d.held, q);
    } else {
      assert d.held - q + SLACK == d.held + SLACK - q;
    }
  }

  lemma {:induction false} SmallRests(s: Scene, d: Desk, ticks: nat)
    requires Aimed(s, d) && s.goal <= s.cfg.tolerance && ticks >= SmallTicks(s, d)
    ensures Rests(s, d)
    decreases ticks
  {
    hide Aimed, SmallTicks, PlanOf, Tick, Rests;
    if PlanOf(s, d).NoAction? {
      RestingRests(s, d);
    } else {
      SmallTick(s, d);
      SmallRests(s, Tick(s, d), ticks - 1);
      RestsAfterTick(s, d);
    }
  }

  // ---- The theorems -------------------------------------------------------------------------------

  /**
   * A reduction comes to rest if and only if its remainder does not flicker: what the caps, the step and the minimum
   * leave of the excess is at most 1e-9, or above the tolerance, or too little to place a stop for, or the target
   * itself is inside the tolerance.
   */
  lemma ReductionRestsIff(s: Scene, d: Desk)
    requires ValidScene(s) && ValidDesk(s, d) && 0.0 < s.goal < d.held
    ensures s.cfg.Scaled() && s.book.Valid()
    ensures var r := Remainder(s, Excess(s, d));
      Rests(s, d) <==> !(s.goal > s.cfg.tolerance && 1e-9 < r <= s.cfg.tolerance && StopFits(s, s.goal + r))
  {
    hide ValidScene, ValidDesk, Tick, PlanOf, StopFits, SellChild, SellDown, Remainder;
    SceneIsScaled(s);
    var ticks := SellTicks(s, d);
    RestsIffRemainder(s, d, ticks);
    if s.goal > s.cfg.tolerance {
      SellDownLeaves(s, d, ticks);
    }
  }

  /** Once the whole-step children are sold, the desk that is left decides. */
  lemma RestsIffRemainder(s: Scene, d: Desk, ticks: nat)
    requires ValidScene(s) && ValidDesk(s, d) && 0.0 < s.goal < d.held && ticks >= SellTicks(s, d)
    ensures var e := SellDown(s, d, ticks);
      && Sold(s, e) && s.goal - SLACK <= e.held <= d.held
      && (Rests(s, d) <==> !Flickers(s, e))
  {
    hide ValidScene, ValidDesk, SellTicks, Tick, PlanOf, StopFits, SellChild;
    SellDownEnds(s, d, ticks);
    var e := SellDown(s, d, ticks);
    if Flickers(s, e) {
      forall n: nat ensures !PlanOf(s, Settle(s, e, n)).NoAction? {
        FlickersForever(s, e, n);
      }
    } else if s.goal <= s.cfg.tolerance {
      MinimumIsPositive(s);
      SmallRests(s, e, SmallTicks(s, e));
    } else if Excess(s, e) <= 1e-9 {
      OnTargetRests(s, e);
    } else {
      UnprotectableRests(s, e);
    }
  }

  lemma MinimumIsPositive(s: Scene)
    requires ValidScene(s)
    ensures s.cfg.minQuantity > 0.0
  {
  }

  /**
   * At rest, a holding that a stop would fit is protected if and only if it is not above its target by more than 1e-9:
   * the stops withdrawn for a reduction are not put back while its remainder is too small to sell.
   */
  lemma AtRestProtectedIff(s: Scene, d: Desk)
    requires Aimed(s, d) && PlanOf(s, d).NoAction? && StopFits(s, d.held)
    ensures Protected(s, d) <==> Excess(s, d) <= 1e-9
    ensures Excess(s, d) > 1e-9 ==> d.stops == []
  {
    hide Decide, Observed, RoundDown, Child;
    Reconciled(s, d);
    if s.goal <= s.cfg.tolerance {
      SmallPlan(s, d);
    } else if Excess(s, d) > 1e-9 {
      TrimPlan(s, d);
    } else {
      RestAfterBuild(s, d);
    }
  }

  // ---- Two accounts under the default configuration -----------------------------------------------

  function Holding(spot: real, orders: seq<OpenOrder>): Input {
    Input(1, Account(30000.0, spot, 0.0, 0.0, orders, false, 1), NO_TARGET.(quantity := 1.0),
          NO_POSITION.(quantity := spot, averageEntry := 4000.0, initialStopFraction := 0.025, stopPrice := 3900.0,
                       bestPrice := 4000.0),
          Book(4000.0, 4001.0, 1.0, 1.0, 0.0, 1), 0.0, false)
  }

  /** Half a tolerance above the target a stop is placed, and withdrawn as soon as it rests. */
  lemma ProtectionFlickers(id: int)
    ensures var p := Decide(DEFAULTS, Holding(1.0005, []));
      && p.Submit? && p.intent.protective && p.intent.quantity == 1.0005
      && Decide(DEFAULTS, Holding(1.0005, [Resting(p.intent, id, 1)])) == Cancel([id])
  {
    assert Floor((1.0005 + SLACK) / 0.0001) == 10005;
    StopAlone(DEFAULTS, Resting(Decide(DEFAULTS, Holding(1.0005, [])).intent, id, 1));
  }

  /** One and a half tolerances above the target a correct stop is withdrawn, and then nothing is done any more. */
  lemma ReductionLeavesUnprotected(id: int)
    ensures var stop := OpenOrder(id, DEFAULTS.stopGroupId, Spot, true, -1.0015, 3900.0, 1);
      && !OutOfDate(DEFAULTS, Holding(1.0015, []).position, stop)
      && Decide(DEFAULTS, Holding(1.0015, [stop])) == Cancel([id])
      && Decide(DEFAULTS, Holding(1.0015, [])) == NoAction(BelowMinimum)
  {
    StopAlone(DEFAULTS, OpenOrder(id, DEFAULTS.stopGroupId, Spot, true, -1.0015, 3900.0, 1));
    assert Capped(DEFAULTS, Holding(1.0015, []), 0.0015) <= 0.0015 by {
      CappedAtMost(DEFAULTS, Holding(1.0015, []), 0.0015);
    }
  }

  lemma StopAlone(cfg: Config, o: OpenOrder)
    requires o.gid == cfg.stopGroupId
    ensures Filter([o], InGroup(cfg.stopGroupId)) == [o] && Sorted(Ids([o])) == [o.id]
  {
    assert [o][..0] == [];
    SameElements(Sorted(Ids([o])), Ids([o]));
  }
}
