/** What a risk decision is in terms of the account, the market and the configuration. */
module RiskTerms {
  import opened Numbers
  import opened Domain
  import opened RiskManager
  import opened RiskSizing
  import opened StopLoss
  import Protocol

  /** Nothing forbids a decision: no halt, a fresh account without a margin long, a fair value and a book to size by. */
  predicate Considered(cfg: RiskConfig, s: State, r: Reading) {
    var a := r.account;
    && !s.halted && !r.haltFile
    && (a.synthetic || (a.updatedAt != 0 && r.now - a.updatedAt <= cfg.accountMaxAge))
    && a.margin <= 1e-9 && r.fair.valid && r.fair.price > 0.0 && r.direct.Valid()
  }

  /** The account's equity, or the capital base where it reports none of its own. */
  function OwnEquity(cfg: RiskConfig, a: Account): real {
    if !a.synthetic && a.equity > 0.0 then a.equity else cfg.capitalBase
  }

  // ---- Refusals -----------------------------------------------------------------------------------

  /**
   * What is refused: the latched halt and the halt file also halt, and flatten if so configured; a margin long halts
   * without flattening; everything else is only not allowed.
   */
  lemma RefusedUnlessConsidered(cfg: RiskConfig, s: State, r: Reading)
    requires cfg.Valid()
    ensures var d, a := Evaluated(cfg, s, r), r.account;
      var stale := !a.synthetic && (a.updatedAt == 0 || r.now - a.updatedAt > cfg.accountMaxAge);
      && (d.allowed ==> Considered(cfg, s, r))
      && (d.halt <==> s.halted || r.haltFile || (!stale && a.margin > 1e-9))
      && (d.flatten <==> (s.halted || r.haltFile) && r.flattenOnHalt)
      && (!d.allowed ==> d.target == Target(0.0, 0.0, 0.0, 0.0, 0.0, 0.0, 0.0))
      && (!Considered(cfg, s, r) ==> d.throttle == 1.0 && d.effectiveEquity == 0.0 == d.drawdownEquity)
  {
    hide BasisOf, Sizing, WorstCase;
  }

  /** A considered reading is decided on its basis. */
  lemma DecidedOnBasis(cfg: RiskConfig, s: State, r: Reading)
    requires cfg.Valid() && Considered(cfg, s, r)
    ensures var b := ReadingBasis(cfg, s, r);
      var own := OwnEquity(cfg, r.account);
      var d := REFUSED.(drawdownEquity := own, effectiveEquity := b.equity, throttle := b.throttle);
      && b.equity == Min(OwnEquity(cfg, r.account), cfg.capitalBase) > 0.0 && Usable(cfg, b) && b.price == r.fair.price
      && Evaluated(cfg, s, r) ==
         if r.signal.noNewEntries then
           d.(allowed := true,
              target := NO_TARGET.(exposure := b.currentExposure, notional := Abs(b.currentQty * b.price),
                                   quantity := b.currentQty, stopPrice := r.position.stopPrice))
         else if WorstCase(b, Sizing(cfg, b, r.position).notional, PendingOpening(r.account.openOrders))
                 > b.absoluteCap + 1e-6 then d
         else d.(allowed := true, target := TargetOf(b, Sizing(cfg, b, r.position)))
  {
    hide Sizing, WorstCase, TargetOf, PendingOpening, Usable, Throttle, ThrottledExposure, RiskBudget, DepthCap,
         ExposureOf, StopDistance, NotionalOf, AbsoluteCap;
    var de := DrawdownEquity(cfg, r.account);
    BasisIsSound(cfg, s, r.signal, r.volatility, r.fair, r.direct, r.account, de, Min(de, cfg.capitalBase));
    BasisIsUsable(cfg, s, r.signal, r.volatility, r.fair, r.direct, r.account, de, Min(de, cfg.capitalBase));
  }

  /** The figures of a basis, from the account, the market and the throttle. */
  lemma BasisInTerms(cfg: RiskConfig, s: State, r: Reading)
    requires cfg.Valid()
    ensures var b := ReadingBasis(cfg, s, r);
      var size := Times(Abs(Times(Clamp(r.signal.desiredExposure, -cfg.grossExposure, cfg.grossExposure), b.throttle)),
                        b.equity);
      var depth := Times(r.direct.depthQuote, cfg.liquidityParticipation);
      && b.currentQty == r.account.Net() && b.desiredNotional == size
      && b.absoluteCap == Times(b.equity, cfg.grossExposure)
      && b.riskBudget == Times(Times(b.equity, cfg.riskPerTrade), b.throttle)
      && b.liquidityCap == (if depth > 0.0 then depth else size)
      && b.stopDistance == Max(cfg.minimumStop, Times(r.volatility, cfg.volatilityMultiplier))
  {
    hide Throttle, ExposureOf;
  }

  /** What resting orders could still add to the net holding: spot bought less metal sold short. */
  function StillOpening(orders: seq<OpenOrder>): real {
    Protocol.Pending(orders, Spot) - Protocol.Pending(orders, Margin)
  }

  lemma {:induction false} PendingIsSigned(orders: seq<OpenOrder>)
    ensures PendingOpening(orders) == StillOpening(orders)
  {
    if orders != [] {
      PendingIsSigned(orders[..|orders| - 1]);
    }
  }

  /**
   * Of a considered reading only this is refused: a holding beyond the cap, with or without its pending orders, or a
   * target beyond it.
   */
  lemma ConsideredIsAllowedIff(cfg: RiskConfig, s: State, r: Reading)
    requires cfg.Valid() && Considered(cfg, s, r)
    ensures var d, net, price := Evaluated(cfg, s, r), r.account.Net(), r.fair.price;
      var cap := Times(d.effectiveEquity, cfg.grossExposure) + 1e-6;
      var held, filled := Abs(Times(net, price)), Abs(Times(net + StillOpening(r.account.openOrders), price));
      d.allowed <==> r.signal.noNewEntries || (held <= cap && filled <= cap)
  {
    PendingIsSigned(r.account.openOrders);
    hide Sizing, TargetOf, Times, ReadingBasis, Evaluated, Usable, PendingOpening;
    var b := ReadingBasis(cfg, s, r);
    DecidedOnBasis(cfg, s, r);
    BasisInTerms(cfg, s, r);
    SizedWithinCap(cfg, b, r.position);
  }

  /** While entries are off, what is held is the target, at the tracked stop and without a size of its own. */
  lemma HoldsWhatIsHeld(cfg: RiskConfig, s: State, r: Reading)
    requires cfg.Valid() && Considered(cfg, s, r) && r.signal.noNewEntries
    ensures var d, t := Evaluated(cfg, s, r), Evaluated(cfg, s, r).target;
      && t.quantity == r.account.Net() && t.notional == Abs(Times(t.quantity, r.fair.price))
      && Times(t.exposure, d.effectiveEquity) == Times(t.quantity, r.fair.price)
      && t.stopPrice == r.position.stopPrice && t.stopDistance == 0.0 && t.riskBudget == 0.0 && t.actualStopRisk == 0.0
  {
    hide ReadingBasis, Evaluated, Usable, Sizing, WorstCase, TargetOf, ExposureOf, WantedExposure, AbsoluteCap;
    var b := ReadingBasis(cfg, s, r);
    DecidedOnBasis(cfg, s, r);
    BasisExposures(cfg, s, r);
    NetIsHeld(cfg, s, r);
    ExposureIsValue(b.currentQty, b.price, b.equity);
  }

  lemma NetIsHeld(cfg: RiskConfig, s: State, r: Reading)
    requires cfg.Valid()
    ensures ReadingBasis(cfg, s, r).currentQty == r.account.Net()
  {
    hide Throttle, ThrottledExposure, RiskBudget, DepthCap, ExposureOf, StopDistance, NotionalOf, AbsoluteCap;
  }

  lemma ExposureIsValue(qty: real, price: real, equity: real)
    requires equity > 0.0
    ensures Times(ExposureOf(qty, price, equity), equity) == Times(qty, price)
    ensures Abs(qty * price) == Abs(Times(qty, price))
  {
    QuotientTimes(qty * price, equity);
  }

  lemma SizedWithinCap(cfg: RiskConfig, b: Basis, p: Position)
    requires Usable(cfg, b)
    ensures Sizing(cfg, b, p).notional <= b.absoluteCap
  {
    hide Sizing, AbsoluteCap, NotionalOf, ExposureOf, OpenRiskCap, Coherent;
    SizingIsSound(cfg, b, p);
  }

  // ---- The throttle -------------------------------------------------------------------------------

  /**
   * Exposure and budget are throttled by the day's loss: not at all below the first soft limit, by the first throttle
   * from there to the second limit, and by the second throttle beyond.
   */
  lemma ThrottleFollowsDayLoss(cfg: RiskConfig, s: State, r: Reading)
    requires cfg.Valid() && Considered(cfg, s, r)
    ensures var d, loss := Evaluated(cfg, s, r), Max(0.0, s.dayStart - OwnEquity(cfg, r.account));
      && d.drawdownEquity == OwnEquity(cfg, r.account)
      && d.effectiveEquity == Min(OwnEquity(cfg, r.account), cfg.capitalBase)
      && (loss >= cfg.softLoss2 ==> d.throttle == Clamp(cfg.softThrottle2, 0.0, 1.0))
      && (cfg.softLoss1 <= loss < cfg.softLoss2 ==> d.throttle == Clamp(cfg.softThrottle1, 0.0, 1.0))
      && (loss < cfg.softLoss1 && loss < cfg.softLoss2 ==> d.throttle == 1.0)
  {
    hide Sizing, TargetOf, WorstCase, Evaluated, Usable, PendingOpening;
    DecidedOnBasis(cfg, s, r);
    ThrottleOfBasis(cfg, s, r);
    hide ReadingBasis;
  }

  lemma ThrottleOfBasis(cfg: RiskConfig, s: State, r: Reading)
    requires cfg.Valid()
    ensures ReadingBasis(cfg, s, r).throttle == Throttle(cfg, s, OwnEquity(cfg, r.account))
  {
    hide Throttle, ThrottledExposure, RiskBudget, DepthCap, ExposureOf, StopDistance, NotionalOf, AbsoluteCap;
  }

  // ---- The size of a target -----------------------------------------------------------------------

  /** The signal's exposure within the gross limits, throttled. */
  function WantedExposure(cfg: RiskConfig, r: Reading, throttle: real): real {
    Times(Clamp(r.signal.desiredExposure, -cfg.grossExposure, cfg.grossExposure), throttle)
  }

  /** Nothing is wanted, or less of the side held than is held at the fair price. */
  predicate WantsLess(r: Reading, wanted: real, equity: real) {
    var net := r.account.Net();
    wanted == 0.0 || (SameSign(wanted, net) && Times(Abs(wanted), equity) < Times(Abs(net), r.fair.price))
  }

  lemma ReductionInTerms(cfg: RiskConfig, s: State, r: Reading)
    requires cfg.Valid() && r.fair.price > 0.0
    ensures var b := ReadingBasis(cfg, s, r);
      IsReduction(b) <==> WantsLess(r, WantedExposure(cfg, r, b.throttle), b.equity)
  {
    var b := ReadingBasis(cfg, s, r);
    BasisExposures(cfg, s, r);
    hide ReadingBasis;
    var net := r.account.Net();
    ExposureTimesEquity(net, r.fair.price, b.equity);
    ProductOfSize(net, r.fair.price);
    ExposureSign(net, r.fair.price, b.equity);
    hide ExposureOf, Times;
    if Abs(b.desired) < Abs(b.currentExposure) {
      TimesStrict(Abs(b.desired), Abs(b.currentExposure), b.equity);
    } else {
      TimesMonotone(Abs(b.currentExposure), Abs(b.desired), b.equity);
    }
  }

  lemma BasisExposures(cfg: RiskConfig, s: State, r: Reading)
    requires cfg.Valid()
    ensures var b := ReadingBasis(cfg, s, r);
      && b.desired == WantedExposure(cfg, r, b.throttle) && b.equity > 0.0
      && b.currentExposure == ExposureOf(r.account.Net(), r.fair.price, b.equity)
  {
    hide Throttle, ExposureOf;
  }

  /** The least of the size wanted and, for more than is held, the budget, the depth and the gross cap. */
  function LeastCap(cfg: RiskConfig, r: Reading, throttle: real, equity: real): real
    requires cfg.Valid()
  {
    var want, gross := Times(Abs(WantedExposure(cfg, r, throttle)), equity), Times(equity, cfg.grossExposure);
    var depth := Times(r.direct.depthQuote, cfg.liquidityParticipation);
    var distance := Max(cfg.minimumStop, Times(r.volatility, cfg.volatilityMultiplier));
    if WantsLess(r, WantedExposure(cfg, r, throttle), equity) then Min(want, gross)
    else
      Min(Min(want, Times(Times(equity, cfg.riskPerTrade), throttle) / distance),
          Min(if depth > 0.0 then depth else want, gross))
  }

  /** The price a fraction away on the losing side of what is wanted, if anything is. */
  function StopOf(price: real, distance: real, wanted: real): real {
    if wanted == 0.0 then 0.0 else price - OnSide(Times(price, distance), wanted > 0.0)
  }

  lemma StopPriceIs(b: Basis)
    ensures StopPrice(b) == StopOf(b.price, b.stopDistance, b.desired)
  {
  }

  /**
   * An allowed target has the size of the least cap, or none if that is below the minimum notional, times the scale
   * its stop risk leaves; it reports the throttled budget, the stop distance in force and the stop that far away.
   */
  lemma SizeFollowsCaps(cfg: RiskConfig, s: State, r: Reading)
    requires cfg.Valid() && EntryPath(cfg, s, r)
    ensures var d, b := Evaluated(cfg, s, r), ReadingBasis(cfg, s, r);
      var least := LeastCap(cfg, r, d.throttle, d.effectiveEquity);
      && d.target.riskBudget == Times(Times(d.effectiveEquity, cfg.riskPerTrade), d.throttle)
      && d.target.stopDistance == Max(cfg.minimumStop, Times(r.volatility, cfg.volatilityMultiplier))
      && d.target.stopPrice == StopOf(r.fair.price, d.target.stopDistance, WantedExposure(cfg, r, d.throttle))
      && d.target.notional <= Times(Abs(WantedExposure(cfg, r, d.throttle)), d.effectiveEquity)
      && d.target.notional == Times(if least < cfg.minimumNotional then 0.0 else least, Scale(cfg, b, r.position))
  {
    var b := ReadingBasis(cfg, s, r);
    RefusedUnlessConsidered(cfg, s, r);
    DecidedOnBasis(cfg, s, r);
    BasisInTerms(cfg, s, r);
    ReductionInTerms(cfg, s, r);
    BasisExposures(cfg, s, r);
    TargetIsSound(cfg, s, r);
    hide Sizing, ReadingBasis, Evaluated, Usable, PendingOpening, Times, Scale, IsReduction, WantsLess, WantedExposure,
         StopPrice, StopOf;
    StopPriceIs(b);
    SizingIsScaled(cfg, b, r.position);
    UnscaledIsLeast(cfg, b);
  }

  /** The least of the values that are not negative, or zero if all are. */
  lemma LeastPositiveInTerms(v: seq<real>)
    ensures var m := MinPositive(v);
      if exists x :: x in v && x >= 0.0 then m in v && m >= 0.0 && forall x :: x in v && x >= 0.0 ==> m <= x
      else m == 0.0
  {
    LeastNonNegativeIsLeast(v);
    hide LeastNonNegative;
    if x :| x in v && x >= 0.0 {
      var k :| 0 <= k < |v| && v[k] == x;
    }
  }

  lemma UnscaledIsLeast(cfg: RiskConfig, b: Basis)
    requires Usable(cfg, b)
    ensures var least := if IsReduction(b) then Min(b.desiredNotional, b.absoluteCap)
                         else Min(Min(b.desiredNotional, b.riskBudget / b.stopDistance),
                                  Min(b.liquidityCap, b.absoluteCap));
      UnscaledNotional(cfg, b) == if least < cfg.minimumNotional then 0.0 else least
  {
    hide IsReduction, NotionalOf, AbsoluteCap, ExposureOf, OpenRiskCap;
    var v := [b.desiredNotional, b.riskBudget / b.stopDistance, b.liquidityCap, b.absoluteCap];
    assert 0.0 / b.stopDistance == 0.0;
    DivMonotone(0.0, b.riskBudget, b.stopDistance);
    LeastNonNegativeIsLeast(v);
    hide LeastNonNegative;
    assert v[0] >= 0.0 && v[1] >= 0.0 && v[2] >= 0.0 && v[3] >= 0.0;
  }
}
