/** The risk manager: latched loss limits over observed equity, and the sizing of each tick's target. */
module RiskManager {
  import opened Numbers
  import opened Domain

  datatype RiskConfig = RiskConfig(
    capitalBase: real, riskPerTrade: real, maximumOpenRisk: real, grossExposure: real, minimumStop: real,
    volatilityMultiplier: real, softLoss1: real, softThrottle1: real, softLoss2: real, softThrottle2: real,
    dailyHardLoss: real, weeklyHardLoss: real, maximumDrawdown: real, maximumLosses: int,
    liquidityParticipation: real, minimumNotional: real, accountMaxAge: Duration)
  {
    /** The risk part of config.Validate. */
    predicate Valid() {
      && capitalBase > 0.0 && 0.0 < grossExposure <= 1.0
      && 0.0 < riskPerTrade <= 0.01 && riskPerTrade <= maximumOpenRisk <= 0.02
      && 0.0 < minimumStop <= 0.25
    }
  }

  /** The values a configuration file may leave out. */
  const DEFAULTS := RiskConfig(
    30000.0, 0.002, 0.005, 1.0, 0.0035, 1.75, 100.0, 0.75, 150.0, 0.50, 225.0, 600.0, 1500.0, 3, 0.05, 25.0,
    30 * SECOND)

  /** Calendar keys: whole days and Monday-based weeks since the zero time, which is a Monday. */
  function DayOf(t: Time): int {
    t / DAY
  }

  function WeekOf(t: Time): int {
    t / (7 * DAY)
  }

  datatype State = State(
    dayKey: Option<int>, weekKey: Option<int>, dayStart: real, weekStart: real, highWater: real, losses: int,
    halted: bool)

  const FRESH := State(None, None, 0.0, 0.0, 0.0, 0, false)

  // ---- Loss limits ------------------------------------------------------------------------------

  function Anchored(s: State, now: Time, equity: real): State {
    var newDay := s.dayKey != Some(DayOf(now)) || s.dayStart <= 0.0;
    var newWeek := s.weekKey != Some(WeekOf(now)) || s.weekStart <= 0.0;
    s.(dayKey := Some(DayOf(now)), dayStart := if newDay then equity else s.dayStart,
       weekKey := Some(WeekOf(now)), weekStart := if newWeek then equity else s.weekStart,
       highWater := Max(s.highWater, equity))
  }

  predicate Breaches(cfg: RiskConfig, s: State, equity: real) {
    || s.dayStart - equity >= cfg.dailyHardLoss
    || s.weekStart - equity >= cfg.weeklyHardLoss
    || s.highWater - equity >= cfg.maximumDrawdown
    || StreakBreached(cfg, s.losses)
  }

  predicate StreakBreached(cfg: RiskConfig, losses: int) {
    cfg.maximumLosses > 0 && losses >= cfg.maximumLosses
  }

  function Observed(cfg: RiskConfig, s: State, now: Time, equity: real): State {
    if equity <= 0.0 then s
    else
      var a := Anchored(s, now, equity);
      a.(halted := s.halted || Breaches(cfg, a, equity))
  }

  function Recorded(cfg: RiskConfig, s: State, pnl: real): State {
    var losses := if pnl < 0.0 then s.losses + 1 else if pnl > 0.0 then 0 else s.losses;
    s.(losses := losses, halted := s.halted || StreakBreached(cfg, losses))
  }

  // ---- Sizing -----------------------------------------------------------------------------------

  datatype Decision = Decision(
    allowed: bool, halt: bool, flatten: bool, throttle: real, effectiveEquity: real, drawdownEquity: real,
    target: Target)

  const REFUSED := Decision(false, false, false, 1.0, 0.0, 0.0, NO_TARGET)

  function PendingOpening(orders: seq<OpenOrder>): real {
    if orders == [] then 0.0
    else
      var o := orders[|orders| - 1];
      PendingOpening(orders[..|orders| - 1])
      + (if (o.venue == Spot && o.remaining > 0.0) || (o.venue == Margin && o.remaining < 0.0) then o.remaining
         else 0.0)
  }

  /** The least non-negative element, or None when every element is negative (Go's +Inf). */
  function LeastNonNegative(v: seq<real>): Option<real> {
    if v == [] then None
    else
      var m, x := LeastNonNegative(v[..|v| - 1]), v[|v| - 1];
      if x >= 0.0 && (m.None? || x < m.value) then Some(x) else m
  }

  function MinPositive(v: seq<real>): real {
    var m := LeastNonNegative(v);
    if m.None? then 0.0 else m.value
  }

  function Throttle(cfg: RiskConfig, s: State, equity: real): real {
    var dayLoss := Max(0.0, s.dayStart - equity);
    if dayLoss >= cfg.softLoss2 then Clamp(cfg.softThrottle2, 0.0, 1.0)
    else if dayLoss >= cfg.softLoss1 then Clamp(cfg.softThrottle1, 0.0, 1.0)
    else 1.0
  }

  /** The quantities a sizing decision is computed from. */
  datatype Basis = Basis(
    equity: real, throttle: real, desired: real, stopDistance: real, riskBudget: real, desiredNotional: real,
    absoluteCap: real, liquidityCap: real, currentQty: real, currentExposure: real, price: real)

  function ThrottledExposure(cfg: RiskConfig, desired: real, throttle: real): real {
    Clamp(desired, -cfg.grossExposure, cfg.grossExposure) * throttle
  }

  function NotionalOf(exposure: real, equity: real): real {
    Abs(exposure) * equity
  }

  function RiskBudget(cfg: RiskConfig, equity: real, throttle: real): real {
    equity * cfg.riskPerTrade * throttle
  }

  function AbsoluteCap(cfg: RiskConfig, equity: real): real {
    equity * cfg.grossExposure
  }

  function ExposureOf(qty: real, price: real, equity: real): real
    requires equity != 0.0
  {
    qty * price / equity
  }

  function DepthCap(cfg: RiskConfig, direct: Book): real {
    direct.depthQuote * cfg.liquidityParticipation
  }

  function StopDistance(cfg: RiskConfig, volatility: real): real {
    Max(cfg.minimumStop, volatility * cfg.volatilityMultiplier)
  }

  function BasisOf(cfg: RiskConfig, s: State, signal: Signal, volatility: real, fair: FairValue, direct: Book,
                   account: Account, drawdownEquity: real, equity: real): Basis
    requires equity > 0.0
  {
    var throttle := Throttle(cfg, s, drawdownEquity);
    var desired := ThrottledExposure(cfg, signal.desiredExposure, throttle);
    var desiredNotional := NotionalOf(desired, equity);
    Basis(equity, throttle, desired, StopDistance(cfg, volatility), RiskBudget(cfg, equity, throttle),
          desiredNotional, AbsoluteCap(cfg, equity),
          if DepthCap(cfg, direct) <= 0.0 then desiredNotional else DepthCap(cfg, direct),
          account.Net(), ExposureOf(account.Net(), fair.price, equity), fair.price)
  }

  predicate IsReduction(b: Basis) {
    b.desired == 0.0 || (SameSign(b.desired, b.currentExposure) && Abs(b.desired) < Abs(b.currentExposure))
  }

  /** The notional before the open-risk scaling. */
  function UnscaledNotional(cfg: RiskConfig, b: Basis): real
    requires b.stopDistance > 0.0
  {
    var n := if IsReduction(b) then Min(b.desiredNotional, b.absoluteCap)
             else MinPositive([b.desiredNotional, b.riskBudget / b.stopDistance, b.liquidityCap, b.absoluteCap]);
    if n > 0.0 && n < cfg.minimumNotional then 0.0 else n
  }

  function Sign(x: real): real {
    if x > 0.0 then 1.0 else if x < 0.0 then -1.0 else 0.0
  }

  function QuantityOf(sign: real, notional: real, price: real): real
    requires price > 0.0
  {
    sign * notional / price
  }

  function StopPrice(b: Basis): real {
    if b.desired > 0.0 then Times(b.price, 1.0 - b.stopDistance)
    else if b.desired < 0.0 then Times(b.price, 1.0 + b.stopDistance)
    else 0.0
  }

  /** The average entry after reaching a quantity, counting what is already held on that side. */
  function EntryReference(b: Basis, p: Position, qty: real): real {
    if SameSign(qty, p.quantity) && p.averageEntry > 0.0 then
      var before, after := Abs(p.quantity), Abs(qty);
      (before * p.averageEntry + Max(0.0, after - before) * b.price) / Max(after, before)
    else b.price
  }

  /** The simulated loss at the stop once the target is filled. */
  function StopRisk(b: Basis, p: Position, qty: real): real {
    var stop, entry := StopPrice(b), EntryReference(b, p, qty);
    if qty > 0.0 && stop > 0.0 then Times(Abs(qty), Max(0.0, entry - stop))
    else if qty < 0.0 && stop > 0.0 then Times(Abs(qty), Max(0.0, stop - entry))
    else 0.0
  }

  datatype Sized = Sized(notional: real, qty: real, risk: real)

  function ScaledBy(z: Sized, scale: real, risk: real): Sized {
    Sized(Times(z.notional, scale), Times(z.qty, scale), risk)
  }

  /** Scaling notional, quantity and reported risk down to a cap on the risk. */
  function ScaledTo(z: Sized, cap: real): Sized
    requires z.risk != 0.0
  {
    ScaledBy(z, cap / z.risk, cap)
  }

  function OpenRiskCap(cfg: RiskConfig, b: Basis): real {
    b.equity * cfg.maximumOpenRisk
  }

  function OpenRiskScaled(cfg: RiskConfig, b: Basis, z: Sized): Sized {
    var cap := OpenRiskCap(cfg, b);
    if !IsReduction(b) && z.risk > cap && z.risk > 0.0 then ScaledTo(z, cap) else z
  }

  function BudgetScaled(b: Basis, z: Sized): Sized {
    if !IsReduction(b) && z.risk > b.riskBudget + 1e-6 && z.risk != 0.0 then ScaledTo(z, b.riskBudget) else z
  }

  function Sizing(cfg: RiskConfig, b: Basis, p: Position): Sized
    requires b.stopDistance > 0.0 && b.price > 0.0
  {
    var n := UnscaledNotional(cfg, b);
    var q := QuantityOf(Sign(b.desired), n, b.price);
    BudgetScaled(b, OpenRiskScaled(cfg, b, Sized(n, q, StopRisk(b, p, q))))
  }

  /** The largest of the target, the current and the pending-inclusive notional. */
  function WorstCase(b: Basis, notional: real, pending: real): real {
    Max(notional, Max(Abs(Times(b.currentQty, b.price)), Abs(Times(b.currentQty + pending, b.price))))
  }

  function TargetOf(b: Basis, z: Sized): Target
    requires b.equity > 0.0
  {
    Target(Sign(b.desired) * z.notional / b.equity, z.notional, z.qty, b.stopDistance, StopPrice(b), b.riskBudget,
           z.risk)
  }

  /** The state of the world a decision reads besides the persistent state. */
  datatype Reading = Reading(
    now: Time, signal: Signal, volatility: real, fair: FairValue, direct: Book, account: Account, position: Position,
    haltFile: bool, flattenOnHalt: bool)

  /** Uncapped equity, for the loss limits and the throttle. */
  function DrawdownEquity(cfg: RiskConfig, a: Account): real {
    if a.synthetic || a.equity <= 0.0 then cfg.capitalBase else a.equity
  }

  function Evaluated(cfg: RiskConfig, s: State, r: Reading): Decision
    requires cfg.Valid()
  {
    var a := r.account;
    if s.halted || r.haltFile then REFUSED.(halt := true, flatten := r.flattenOnHalt)
    else if !a.synthetic && (a.updatedAt == 0 || r.now - a.updatedAt > cfg.accountMaxAge) then REFUSED
    else if a.margin > 1e-9 then REFUSED.(halt := true)
    else if !r.fair.valid || r.fair.price <= 0.0 || !r.direct.Valid() then REFUSED
    else
      var drawdownEquity := DrawdownEquity(cfg, a);
      var equity := Min(drawdownEquity, cfg.capitalBase);
      var b := BasisOf(cfg, s, r.signal, r.volatility, r.fair, r.direct, a, drawdownEquity, equity);
      var d := REFUSED.(drawdownEquity := drawdownEquity, effectiveEquity := equity, throttle := b.throttle);
      if r.signal.noNewEntries then
        d.(allowed := true,
           target := NO_TARGET.(exposure := b.currentExposure, notional := Abs(b.currentQty * b.price),
                                quantity := b.currentQty, stopPrice := r.position.stopPrice))
      else
        var z := Sizing(cfg, b, r.position);
        if WorstCase(b, z.notional, PendingOpening(a.openOrders)) > b.absoluteCap + 1e-6 then d
        else d.(allowed := true, target := TargetOf(b, z))
  }

  class Manager {
    const cfg: RiskConfig
    var state: State

    constructor (cfg: RiskConfig, restored: State)
      ensures this.cfg == cfg && state == restored
    {
      this.cfg := cfg;
      state := restored;
    }

    method ObserveEquity(now: Time, equity: real)
      modifies this
      ensures state == Observed(cfg, old(state), now, equity)
    {
      if equity <= 0.0 {
        return;
      }
      var day, week := DayOf(now), WeekOf(now);
      if state.dayKey != Some(day) || state.dayStart <= 0.0 {
        state := state.(dayKey := Some(day), dayStart := equity);
      }
      if state.weekKey != Some(week) || state.weekStart <= 0.0 {
        state := state.(weekKey := Some(week), weekStart := equity);
      }
      if equity > state.highWater {
        state := state.(highWater := equity);
      }
      if !state.halted {
        if state.dayStart - equity >= cfg.dailyHardLoss {
          state := state.(halted := true);
        } else if state.weekStart - equity >= cfg.weeklyHardLoss {
          state := state.(halted := true);
        } else if state.highWater - equity >= cfg.maximumDrawdown {
          state := state.(halted := true);
        } else if cfg.maximumLosses > 0 && state.losses >= cfg.maximumLosses {
          state := state.(halted := true);
        }
      }
    }

    method RecordClosedTrade(pnl: real)
      modifies this
      ensures state == Recorded(cfg, old(state), pnl)
    {
      if pnl < 0.0 {
        state := state.(losses := state.losses + 1);
      } else if pnl > 0.0 {
        state := state.(losses := 0);
      }
      if !state.halted && cfg.maximumLosses > 0 && state.losses >= cfg.maximumLosses {
        state := state.(halted := true);
      }
    }

    method PendingOpeningQuantity(orders: seq<OpenOrder>) returns (q: real)
      ensures q == PendingOpening(orders)
    {
      q := 0.0;
      for i := 0 to |orders|
        invariant q == PendingOpening(orders[..i])
      {
        var o := orders[i];
        assert orders[..i + 1][..i] == orders[..i];
        if o.venue == Spot && o.remaining > 0.0 {
          q := q + o.remaining;
        } else if o.venue == Margin && o.remaining < 0.0 {
          q := q + o.remaining;
        }
      }
      assert orders[..|orders|] == orders;
    }

    method LeastPositive(v: seq<real>) returns (m: real)
      ensures m == MinPositive(v)
    {
      var least: Option<real> := None;
      for i := 0 to |v|
        invariant least == LeastNonNegative(v[..i])
      {
        assert v[..i + 1][..i] == v[..i];
        if v[i] >= 0.0 && (least.None? || v[i] < least.value) {
          least := Some(v[i]);
        }
      }
      assert v[..|v|] == v;
      m := if least.None? then 0.0 else least.value;
    }

    /** The entry path from the sizing inputs to the notional, quantity and risk of the target. */
    method SizeTarget(b: Basis, p: Position) returns (z: Sized)
      requires b.stopDistance > 0.0 && b.price > 0.0
      ensures z == Sizing(cfg, b, p)
    {
      hide StopRisk, ScaledTo, IsReduction, QuantityOf, OpenRiskCap;
      var notional := LeastPositive([b.desiredNotional, b.riskBudget / b.stopDistance, b.liquidityCap, b.absoluteCap]);
      if IsReduction(b) {
        notional := Min(b.desiredNotional, b.absoluteCap);
      }
      if notional > 0.0 && notional < cfg.minimumNotional {
        notional := 0.0;
      }
      assert notional == UnscaledNotional(cfg, b);
      z := Sized(notional, QuantityOf(Sign(b.desired), notional, b.price), 0.0);
      z := z.(risk := StopRisk(b, p, z.qty));
      var openRiskCap := OpenRiskCap(cfg, b);
      if !IsReduction(b) && z.risk > openRiskCap && z.risk > 0.0 {
        z := ScaledTo(z, openRiskCap);
      }
      if !IsReduction(b) && z.risk > b.riskBudget + 1e-6 && z.risk != 0.0 {
        z := ScaledTo(z, b.riskBudget);
      }
    }

    method Evaluate(r: Reading) returns (d: Decision)
      requires cfg.Valid()
      ensures d == Evaluated(cfg, state, r)
    {
      hide Sizing, WorstCase, TargetOf, BasisOf, PendingOpening;
      d := REFUSED;
      if state.halted || r.haltFile {
        return d.(halt := true, flatten := r.flattenOnHalt);
      }
      if !r.account.synthetic && (r.account.updatedAt == 0 || r.now - r.account.updatedAt > cfg.accountMaxAge) {
        return;
      }
      if r.account.margin > 1e-9 {
        return d.(halt := true);
      }
      if !r.fair.valid || r.fair.price <= 0.0 || !r.direct.Valid() {
        return;
      }
      var drawdownEquity := r.account.equity;
      if r.account.synthetic || drawdownEquity <= 0.0 {
        drawdownEquity := cfg.capitalBase;
      }
      d := d.(drawdownEquity := drawdownEquity);
      var equity := Min(drawdownEquity, cfg.capitalBase);
      d := d.(effectiveEquity := equity);
      var b := BasisOf(cfg, state, r.signal, r.volatility, r.fair, r.direct, r.account, drawdownEquity, equity);
      d := d.(throttle := b.throttle);
      if r.signal.noNewEntries {
        d := d.(allowed := true);
        d := d.(target := NO_TARGET.(exposure := b.currentExposure, notional := Abs(b.currentQty * b.price),
                                     quantity := b.currentQty, stopPrice := r.position.stopPrice));
        return;
      }
      BasisIsUsable(cfg, state, r.signal, r.volatility, r.fair, r.direct, r.account, drawdownEquity, equity);
      var z := SizeTarget(b, r.position);
      var pending := PendingOpeningQuantity(r.account.openOrders);
      if WorstCase(b, z.notional, pending) > b.absoluteCap + 1e-6 {
        return;
      }
      d := d.(allowed := true);
      d := d.(target := TargetOf(b, z));
    }
  }

  lemma BasisIsUsable(cfg: RiskConfig, s: State, signal: Signal, volatility: real, fair: FairValue, direct: Book,
                      account: Account, drawdownEquity: real, equity: real)
    requires cfg.Valid() && equity > 0.0 && fair.price > 0.0
    ensures var b := BasisOf(cfg, s, signal, volatility, fair, direct, account, drawdownEquity, equity);
      b.stopDistance > 0.0 && b.price == fair.price && b.equity == equity
  {
    hide Throttle, ThrottledExposure, NotionalOf, RiskBudget, AbsoluteCap, ExposureOf, DepthCap;
  }
}
