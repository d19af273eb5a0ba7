/** What a tick's plan can be: nothing that opens a position while halted, and nothing the adapter's guard rejects. */
module TickFacts {
  import opened Numbers
  import opened Sequences
  import opened Domain
  import opened Planner
  import opened App
  import Encumbrance
  import PlannerFacts
  import OrderGuard
  import Tracker
  import TrackerFacts
  import Ledger
  import RiskManager
  import RiskSizing

  // ---- Halted ticks -------------------------------------------------------------------------------

  /**
   * How far the planner would still enlarge the position when its target is the net holding. It is positive only for
   * holdings the bot never intends: a margin long, or a negative spot balance.
   */
  function HoldGap(cfg: Config, a: Account): real {
    var net := a.Net();
    if net > cfg.tolerance && Min(0.0, a.margin) >= -cfg.tolerance then net - Max(0.0, a.spot)
    else if net < -cfg.tolerance && Max(0.0, a.spot) <= cfg.tolerance then Min(0.0, a.margin) - net
    else 0.0
  }

  /** The gap is large enough to become an order. */
  predicate HoldMayOpen(cfg: Config, a: Account) {
    HoldGap(cfg, a) >= cfg.minQuantity && RoundDown(HoldGap(cfg, a), cfg.quantityStep) >= cfg.minQuantity
  }

  lemma FlatteningNeverOpens(cfg: Config, inp: Input)
    requires cfg.Scaled() && inp.target == NO_TARGET
    requires Decide(cfg, inp).Submit?
    ensures !IsOpening(Decide(cfg, inp).intent)
  {
    hide Protective, Toward, PlannerFacts.WithinCaps, IsMultiple, RoundDown;
    if Decide(cfg, inp).intent.protective {
      PlannerFacts.ProtectiveShape(cfg, inp);
    } else {
      PlannerFacts.WorkingOrderShape(cfg, inp);
    }
  }

  /** The move planned for the standing position opens exactly the gap. */
  lemma HoldMove(cfg: Config, a: Account)
    requires cfg.Scaled()
    ensures var m := NextMove(cfg, a.Net(), a);
      m.Move? && (m.venue == Spot) == (m.side == Buy) ==> m.want == HoldGap(cfg, a)
    ensures HoldGap(cfg, a) >= cfg.minQuantity ==>
      NextMove(cfg, a.Net(), a) ==
        if a.Net() > 0.0 then Move(Spot, Buy, HoldGap(cfg, a)) else Move(Margin, Sell, HoldGap(cfg, a))
  {
  }

  lemma HoldOpensOnlyTheGap(cfg: Config, inp: Input)
    requires cfg.Scaled()
    requires Decide(cfg, HoldInput(inp)).Submit? && IsOpening(Decide(cfg, HoldInput(inp)).intent)
    ensures HoldMayOpen(cfg, inp.account)
  {
    hide RoundDown, RoundPrice, ChildPrice, Caps, PlannerFacts.WithinCaps, IsMultiple, NextMove, HoldGap;
    var h := HoldInput(inp);
    var i := Decide(cfg, h).intent;
    if i.protective {
      PlannerFacts.ProtectiveShape(cfg, h);
    } else {
      PlannerFacts.WorkingOrderShape(cfg, h);
      var m := NextMove(cfg, inp.account.Net(), inp.account);
      HoldMove(cfg, inp.account);
      assert Decide(cfg, h) == Child(cfg, h, m.venue, m.side, m.want);
      PlannerFacts.ChildBounds(cfg, h, m.venue, m.side, m.want);
      PlannerFacts.CappedAtMost(cfg, h, m.want);
      PlannerFacts.RoundDownMonotone(Capped(cfg, h, m.want), m.want, cfg.quantityStep);
    }
  }

  ghost function PermissiveInput(cfg: Config, a: Account, now: Time): Input
    requires HoldGap(cfg, a) > 0.0
  {
    Input(now, a, NO_TARGET, NO_POSITION, PlannerFacts.PermissiveBook(cfg, HoldGap(cfg, a)), 0.0, false)
  }

  lemma HoldOpensTheGap(cfg: Config, a: Account, now: Time)
    requires cfg.Scaled() && HoldMayOpen(cfg, a) && BotOrderIds(cfg, a) == []
    ensures OpeningPlan(Decide(cfg, HoldInput(PermissiveInput(cfg, a, now))))
  {
    hide RoundDown, RoundPrice, ChildPrice, Caps, Capped, PlannerFacts.PermissiveBook, NextMove, HoldGap, Protective;
    var h := HoldInput(PermissiveInput(cfg, a, now));
    var gap := HoldGap(cfg, a);
    GapNeedsHolding(cfg, a);
    HoldMove(cfg, a);
    PlannerFacts.PermissiveCaps(cfg, h, gap);
    assert Filter(a.openOrders, InGroup(cfg.groupId)) == [];
    assert !NeedsStopCancellation(a.Net(), a) && !ShouldProtectDuringBuild(h);
    var m := NextMove(cfg, a.Net(), a);
    assert Decide(cfg, h) == Child(cfg, h, m.venue, m.side, gap);
  }

  lemma GapNeedsHolding(cfg: Config, a: Account)
    requires cfg.Scaled() && HoldGap(cfg, a) > 0.0
    ensures Abs(a.Net()) > cfg.tolerance
  {
  }

  /** A decision refused by a halt that does not flatten. */
  const HALTED := RiskManager.REFUSED.(halt := true)

  ghost predicate HaltedTickOpens(cfg: Config, a: Account, inp: Input) {
    inp.account == a && OpeningPlan(TickPlan(cfg, false, HALTED, false, inp))
  }

  /**
   * A halted tick that does not flatten plans for the standing position. Whatever the book, the position and the
   * volume, it opens nothing, except exactly when the account reports a holding the bot never takes (a margin long
   * or a negative spot balance) that is large enough to become an order.
   */
  lemma HaltedTickOpensIff(cfg: Config, a: Account)
    requires cfg.Scaled() && BotOrderIds(cfg, a) == []
    ensures (exists inp :: HaltedTickOpens(cfg, a, inp)) <==> HoldMayOpen(cfg, a)
  {
    hide HoldMayOpen, Decide;
    if inp :| HaltedTickOpens(cfg, a, inp) {
      HoldOpensOnlyTheGap(cfg, inp);
    }
    if HoldMayOpen(cfg, a) {
      HoldMayOpenGap(cfg, a);
      HoldOpensTheGap(cfg, a, 0);
      assert HaltedTickOpens(cfg, a, PermissiveInput(cfg, a, 0));
    }
  }

  lemma HoldMayOpenGap(cfg: Config, a: Account)
    requires cfg.Scaled() && HoldMayOpen(cfg, a)
    ensures HoldGap(cfg, a) > 0.0
  {
    hide RoundDown, HoldGap;
  }

  /** Holdings the bot itself can take never leave a gap. */
  lemma SupportedHoldingsLeaveNoGap(cfg: Config, a: Account)
    requires cfg.Scaled() && a.spot >= 0.0 && a.margin <= 0.0
    ensures !HoldMayOpen(cfg, a)
  {
    hide RoundDown;
  }

  /** Under the default configuration a margin long of one unit makes a halted, non-flattening tick buy spot. */
  lemma MarginLongOpensWhileHalted()
    ensures var a := Account(30000.0, 0.0, 1.0, 4000.0, [], false, 1);
      HoldMayOpen(DEFAULTS, a) && exists inp :: HaltedTickOpens(DEFAULTS, a, inp)
  {
    var a := Account(30000.0, 0.0, 1.0, 4000.0, [], false, 1);
    assert HoldGap(DEFAULTS, a) == 1.0;
    assert Floor((1.0 + SLACK) / 0.0001) == 10000;
    HaltedTickOpensIff(DEFAULTS, a);
  }

  /** No branch of a halted tick opens a position on holdings the bot itself can take. */
  lemma HaltedTickNeverOpens(cfg: Config, exit: bool, d: RiskManager.Decision, noNewEntries: bool, inp: Input)
    requires cfg.Scaled() && d.halt && !d.allowed && !HoldMayOpen(cfg, inp.account)
    ensures !OpeningPlan(TickPlan(cfg, exit, d, noNewEntries, inp))
  {
    hide HoldMayOpen, Decide;
    var flat := inp.(target := NO_TARGET, urgent := true);
    if Decide(cfg, flat).Submit? {
      FlatteningNeverOpens(cfg, flat);
    }
    if OpeningPlan(Decide(cfg, HoldInput(inp))) {
      HoldOpensOnlyTheGap(cfg, inp);
    }
  }

  // ---- The guard ----------------------------------------------------------------------------------

  lemma ReconciledQuantity(cfg: Tracker.StopConfig, p: Position, now: Time, a: Account, book: Book)
    requires book.Valid() && !Tracker.Simultaneous(a)
    ensures Tracker.Observed(cfg, p, now, a, book).quantity == Tracker.CurrentQuantity(a)
  {
    hide Tracker.StopAt, Tracker.Blend, Tracker.RewardR, Tracker.TrailingCandidate, Tracker.RiskDistance;
  }

  /**
   * Whatever branch a tick takes, an order planned with the position reconciled from the same single-venue snapshot
   * can only be refused by the adapter for age or gross exposure, and a reducing one only for age.
   */
  lemma TickOrdersPassTheGuard(cfg: Config, g: OrderGuard.GuardConfig, stops: Tracker.StopConfig, p: Position,
                               exit: bool, d: RiskManager.Decision, noNewEntries: bool, inp: Input, now: Time)
    requires cfg.Scaled() && !Tracker.Simultaneous(inp.account)
    requires inp.position == Tracker.Observed(stops, p, inp.now, inp.account, inp.direct)
    requires TickPlan(cfg, exit, d, noNewEntries, inp).Submit?
    ensures var i := TickPlan(cfg, exit, d, noNewEntries, inp).intent;
      var v := OrderGuard.Judge(cfg, g, inp.account, now, i);
      && v in {OrderGuard.Accepted, OrderGuard.SnapshotStale, OrderGuard.GrossCapExceeded}
      && (!IsOpening(i) ==> v in {OrderGuard.Accepted, OrderGuard.SnapshotStale})
  {
    hide Tracker.Observed, OrderGuard.Judge, Decide;
    var flat := inp.(target := NO_TARGET, urgent := true);
    var planned := if exit || (d.halt && d.flatten) then flat
                   else if noNewEntries || !d.allowed then HoldInput(inp) else inp.(target := d.target);
    PlansNeedABook(cfg, planned);
    ReconciledQuantity(stops, p, inp.now, inp.account, inp.direct);
    OrderGuard.PlannedOrdersPassTheGuard(cfg, g, planned, now);
  }

  lemma PlansNeedABook(cfg: Config, inp: Input)
    requires Decide(cfg, inp).Submit?
    ensures inp.direct.Valid()
  {
    hide Toward, Protective;
  }

  // ---- Reductions and stops -----------------------------------------------------------------------

  /** The minimum quantity is above the tolerance by more than what the tracker takes for flat, and the slack. */
  predicate AboveTracker(cfg: Config) {
    cfg.Scaled() && cfg.minQuantity > cfg.tolerance + 1e-8 + 1e-9
  }

  /** A normal order that reduces or closes. */
  predicate ReducingPlan(p: Plan) {
    p.Submit? && !p.intent.protective && PlannerFacts.Reduces(p.intent)
  }

  predicate NothingRests(cfg: Config, a: Account) {
    Filter(a.openOrders, InGroup(cfg.groupId)) == [] && Filter(a.openOrders, InGroup(cfg.stopGroupId)) == []
  }

  lemma ReductionIsClear(cfg: Config, inp: Input)
    requires AboveTracker(cfg) && inp.account.spot >= 0.0 && inp.account.margin <= 0.0 && ReducingPlan(Decide(cfg, inp))
    requires inp.target.quantity == 0.0 || !Tracker.Simultaneous(inp.account)
    ensures NothingRests(cfg, inp.account)
  {
    hide Decide, Filter, PlannerFacts.WithinCaps, IsMultiple, NextMove;
    PlannerFacts.WorkingOrderSource(cfg, inp);
    if Filter(inp.account.openOrders, InGroup(cfg.stopGroupId)) != [] {
      Encumbrance.BesideStopIsHidden(cfg, inp);
      if inp.target.quantity != 0.0 {
        Encumbrance.OneVenueHidesNothing(cfg, inp.target.quantity, inp.account);
      }
      assert false;
    }
  }

  /**
   * A tick sends a normal reducing or closing order only when no stop and no working order rests, whatever the two
   * holdings: holding both venues takes the exit branch, whose flat target withdraws the stops first.
   */
  lemma TickReductionIsUnencumbered(s: Settings, m: Memory, t: TickInput, order: seq<Ledger.Fill>)
    requires AboveTracker(s.app.planner) && s.risk.Valid() && !RefreshFails(s.app, m, t)
    requires var a := WithAccount(s.app, m, t).account; a.spot >= 0.0 && a.margin <= 0.0
    ensures ReducingPlan(Reported(s, m, t, order).plan) ==>
              NothingRests(s.app.planner, WithAccount(s.app, m, t).account)
  {
    hide Assessed, SignalOf, ClosedBy, RiskManager.Evaluated, Decide, ActionOf, NotedExit, NothingRests,
         Tracker.Announced, Tracker.Observed;
    var a, cfg := WithAccount(s.app, m, t), s.app.planner;
    var r := Reported(s, m, t, order);
    AssessedAccount(s, a, t, order);
    TrackerFacts.ExitsAreExact(s.stops, a.position, TrackerFacts.See(t.now, a.account, t.direct));
    var inp := PlannerInput(Assessed(s, a, t, order), t, r.decision.target);
    if ReducingPlan(r.plan) {
      var planned := if r.exit || (r.decision.halt && r.decision.flatten) then inp.(target := NO_TARGET, urgent := true)
                     else if r.signal.noNewEntries || !r.decision.allowed then HoldInput(inp)
                     else inp.(target := r.decision.target);
      assert r.plan == Decide(cfg, planned);
      PlansNeedABook(cfg, planned);
      ReductionIsClear(cfg, planned);
    }
  }

  // ---- The exposure the strategy sees -------------------------------------------------------------

  /** The exposure the strategy sees is the position's value over the capital in use, with the position's sign. */
  lemma ExposureIsRelativeValue(a: Account, fair: real, cap: real)
    requires fair > 0.0 && cap > 0.0
    ensures var capital := if a.synthetic || a.equity <= 0.0 || a.equity > cap then cap else a.equity;
      Times(Exposure(a, fair, cap), capital) == Times(a.Net(), fair)
    ensures (Exposure(a, fair, cap) > 0.0 <==> a.Net() > 0.0) && (Exposure(a, fair, cap) < 0.0 <==> a.Net() < 0.0)
  {
    var capital := if a.synthetic || a.equity <= 0.0 || a.equity > cap then cap else a.equity;
    QuotientTimes(a.Net() * fair, capital);
    SameSignScaled(a.Net(), fair);
    SameSignScaled(Exposure(a, fair, cap), capital);
  }

  lemma SameSignScaled(x: real, m: real)
    requires m > 0.0
    ensures (x * m > 0.0 <==> x > 0.0) && (x * m < 0.0 <==> x < 0.0)
  {
    if x > 0.0 {
      MulStrict(0.0, x, m);
    } else if x < 0.0 {
      MulStrict(x, 0.0, m);
    }
  }

  // ---- The tick as a whole ------------------------------------------------------------------------

  lemma {:induction false} RecordingKeepsHalt(
    cfg: RiskManager.RiskConfig, s: RiskManager.State, closed: seq<Ledger.OpenTrade>)
    requires s.halted
    ensures RecordAll(cfg, s, closed).halted
  {
    if closed != [] {
      RecordingKeepsHalt(cfg, s, closed[..|closed| - 1]);
    }
  }

  /** The losing trades that complete the streak leave the state halted. */
  lemma {:induction false} FinalLossHalts(
    cfg: RiskManager.RiskConfig, s: RiskManager.State, losses: seq<Ledger.OpenTrade>)
    requires cfg.maximumLosses > 0 && losses != [] && forall k :: 0 <= k < |losses| ==> losses[k].record.net < 0.0
    requires s.losses + |losses| >= cfg.maximumLosses
    ensures RecordAll(cfg, s, losses).halted && RecordAll(cfg, s, losses).losses == s.losses + |losses|
  {
    CountRecorded(cfg, s, losses);
  }

  lemma {:induction false} CountRecorded(
    cfg: RiskManager.RiskConfig, s: RiskManager.State, losses: seq<Ledger.OpenTrade>)
    requires forall k :: 0 <= k < |losses| ==> losses[k].record.net < 0.0
    ensures RecordAll(cfg, s, losses).losses == s.losses + |losses|
    ensures losses != [] && cfg.maximumLosses > 0 && s.losses + |losses| >= cfg.maximumLosses ==>
              RecordAll(cfg, s, losses).halted
  {
    if losses != [] {
      CountRecorded(cfg, s, losses[..|losses| - 1]);
    }
  }

  /** The risk state a tick decides on and leaves behind holds its own closed trades and its own equity. */
  lemma TickRiskState(s: Settings, m: Memory, t: TickInput, order: seq<Ledger.Fill>)
    requires s.risk.Valid() && !RefreshFails(s.app, m, t)
    ensures var a, r := WithAccount(s.app, m, t), Reported(s, m, t, order);
      Ticked(s, m, t, order).risk
      == RiskManager.Observed(s.risk, RecordAll(s.risk, m.risk, r.closed), t.now,
                              RiskManager.DrawdownEquity(s.risk, a.account))
    ensures Ticked(s, m, t, order).account == WithAccount(s.app, m, t).account
  {
    hide RiskManager.Observed, Tracker.Observed, Tracker.Announced, Ledger.TakeAll, Ledger.Marked, Ticked, PlanOf,
         DecisionOf, SignalOf, ActionOf, Planned;
    TickKeepsAssessment(s, m, t, order);
    AssessedAccount(s, WithAccount(s.app, m, t), t, order);
  }

  /** Deciding and acting leave alone what a tick has learned. */
  lemma TickKeepsAssessment(s: Settings, m: Memory, t: TickInput, order: seq<Ledger.Fill>)
    requires s.risk.Valid() && !RefreshFails(s.app, m, t)
    ensures var n, a := Ticked(s, m, t, order), Assessed(s, WithAccount(s.app, m, t), t, order);
      n.risk == a.risk && n.account == a.account && n.blocks == a.blocks && n.ledger == a.ledger
  {
    hide Assessed, DecisionOf, SignalOf, PlanOf, NotedExit, ExitOf, Sends, MaySubmit;
  }

  lemma HaltedIsRefused(cfg: RiskManager.RiskConfig, s: RiskManager.State, r: RiskManager.Reading)
    requires cfg.Valid() && s.halted
    ensures RiskManager.Evaluated(cfg, s, r).halt && !RiskManager.Evaluated(cfg, s, r).allowed
  {
  }

  /**
   * Once the hard halt is latched, it stays latched, every decision is refused, and no opening order is submitted
   * unless the account holds what the bot never takes. That includes the tick whose own fills or equity latch it.
   */
  lemma HaltedTicksNeverOpen(s: Settings, m: Memory, t: TickInput, order: seq<Ledger.Fill>)
    requires s.app.planner.Scaled() && s.risk.Valid()
    ensures var r, n := Reported(s, m, t, order), Ticked(s, m, t, order);
      && (m.risk.halted ==> n.risk.halted)
      && (n.risk.halted && !r.aborted ==> r.decision.halt && !r.decision.allowed)
      && (n.risk.halted && !HoldMayOpen(s.app.planner, n.account) ==> !OpeningPlan(r.plan) && !OpensPosition(r.action))
  {
    hide RiskManager.Evaluated, Tracker.Observed, Tracker.Announced, TickPlan, OrderGuard.Judge, Ledger.TakeAll,
         NotedExit, HoldMayOpen, Executed, Assessed, Sends, MaySubmit;
    if !RefreshFails(s.app, m, t) {
      var a := WithAccount(s.app, m, t);
      TickRiskState(s, m, t, order);
      TickKeepsAssessment(s, m, t, order);
      var r, n := Reported(s, m, t, order), Ticked(s, m, t, order);
      if m.risk.halted {
        RecordingKeepsHalt(s.risk, m.risk, r.closed);
      }
      if n.risk.halted {
        var b := Assessed(s, a, t, order);
        HaltedIsRefused(s.risk, b.risk, ReadingOf(s, b, t, r.signal));
        AssessedAccount(s, a, t, order);
        var inp := PlannerInput(b, t, r.decision.target);
        if !HoldMayOpen(s.app.planner, n.account) {
          HaltedTickNeverOpens(s.app.planner, r.exit, r.decision, r.signal.noNewEntries, inp);
        }
      }
    }
  }

  lemma AssessedAccount(s: Settings, m: Memory, t: TickInput, order: seq<Ledger.Fill>)
    ensures var a := Assessed(s, m, t, order);
      a.account == m.account && a.accountAt == m.accountAt && a.lastSubmit == m.lastSubmit
  {
    hide RiskManager.Observed, Tracker.Observed, Tracker.Announced, Ledger.TakeAll, Ledger.Marked;
  }

  /** An allowed entry-path target is never on a side the signal has no exposure on. */
  lemma TargetFollowsSignal(cfg: RiskManager.RiskConfig, s: RiskManager.State, r: RiskManager.Reading)
    requires cfg.Valid() && RiskSizing.EntryPath(cfg, s, r)
    ensures var q := RiskManager.Evaluated(cfg, s, r).target.quantity;
      (q > 0.0 ==> r.signal.desiredExposure > 0.0) && (q < 0.0 ==> r.signal.desiredExposure < 0.0)
  {
    hide RiskManager.Evaluated;
    RiskSizing.TargetIsSound(cfg, s, r);
    RiskSizing.DesiredFollowsSignal(cfg, s, r);
  }

  /** A plan that opens comes from the target branch, with an allowed target on the side it opens. */
  lemma PlanOpensOnlyTheTarget(cfg: Config, exit: bool, d: RiskManager.Decision, noNewEntries: bool, inp: Input)
    requires cfg.Scaled() && !HoldMayOpen(cfg, inp.account)
    ensures var p := TickPlan(cfg, exit, d, noNewEntries, inp);
      OpeningPlan(p) ==>
        && d.allowed && !noNewEntries && !exit && !(d.halt && d.flatten)
        && (if p.intent.venue == Spot then d.target.quantity > 0.0 else d.target.quantity < 0.0)
  {
    hide HoldMayOpen, Decide;
    var flat, on := inp.(target := NO_TARGET, urgent := true), inp.(target := d.target);
    if Decide(cfg, flat).Submit? {
      FlatteningNeverOpens(cfg, flat);
    }
    if OpeningPlan(Decide(cfg, HoldInput(inp))) {
      HoldOpensOnlyTheGap(cfg, inp);
    }
    if OpeningPlan(Decide(cfg, on)) {
      OpensTowardTarget(cfg, on);
    }
  }

  lemma OpensTowardTarget(cfg: Config, inp: Input)
    requires cfg.Scaled() && OpeningPlan(Decide(cfg, inp))
    ensures if Decide(cfg, inp).intent.venue == Spot then inp.target.quantity > 0.0 else inp.target.quantity < 0.0
  {
    hide Decide, PlannerFacts.WithinCaps, IsMultiple;
    if Decide(cfg, inp).intent.protective {
      PlannerFacts.ProtectiveShape(cfg, inp);
    } else {
      PlannerFacts.WorkingOrderShape(cfg, inp);
    }
  }
}
