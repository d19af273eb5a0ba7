/** What a sized target guarantees, whatever the signal, market, account and position. */
module RiskSizing {
  import opened Numbers
  import opened Domain
  import opened RiskManager

  // ---- The caps ---------------------------------------------------------------------------------

  lemma {:induction false} LeastNonNegativeIsLeast(v: seq<real>)
    ensures var m := LeastNonNegative(v);
      && (m.Some? ==> m.value >= 0.0 && m.value in v)
      && (forall k :: 0 <= k < |v| && v[k] >= 0.0 ==> m.Some? && m.value <= v[k])
  {
    if v != [] {
      var front, m := v[..|v| - 1], LeastNonNegative(v);
      LeastNonNegativeIsLeast(front);
      forall k | 0 <= k < |v| && v[k] >= 0.0 ensures m.Some? && m.value <= v[k] {
        assert k < |front| ==> front[k] == v[k];
      }
    }
  }

  /** The inputs of the entry path that configuration and the caller's checks guarantee. */
  predicate Usable(cfg: RiskConfig, b: Basis) {
    && b.price > 0.0 && b.equity > 0.0 && b.stopDistance > 0.0 && 0.0 <= b.throttle <= 1.0
    && b.desiredNotional == NotionalOf(b.desired, b.equity) >= 0.0
    && b.desiredNotional <= b.absoluteCap == AbsoluteCap(cfg, b.equity)
    && 0.0 <= b.riskBudget <= OpenRiskCap(cfg, b) && (b.desired != 0.0 ==> b.riskBudget > 0.0)
    && b.liquidityCap >= 0.0
    && b.currentExposure == ExposureOf(b.currentQty, b.price, b.equity)
  }

  lemma ThrottledExposureIsBounded(cfg: RiskConfig, desired: real, throttle: real, equity: real)
    requires cfg.Valid() && 0.0 <= throttle <= 1.0 && equity > 0.0
    ensures 0.0 <= NotionalOf(ThrottledExposure(cfg, desired, throttle), equity) <= AbsoluteCap(cfg, equity)
  {
    BoundedTimesFraction(Clamp(desired, -cfg.grossExposure, cfg.grossExposure), cfg.grossExposure, throttle);
    var x := Abs(ThrottledExposure(cfg, desired, throttle));
    hide ThrottledExposure;
    MulMonotone(0.0, x, equity);
    MulMonotone(x, cfg.grossExposure, equity);
  }

  lemma BudgetBelowOpenRisk(cfg: RiskConfig, equity: real, throttle: real)
    requires cfg.Valid() && equity > 0.0 && 0.0 <= throttle <= 1.0
    ensures 0.0 <= RiskBudget(cfg, equity, throttle) <= equity * cfg.maximumOpenRisk
  {
    var x := equity * cfg.riskPerTrade;
    MulMonotone(0.0, equity, cfg.riskPerTrade);
    assert x <= equity * cfg.maximumOpenRisk by { MulMonotone(cfg.riskPerTrade, cfg.maximumOpenRisk, equity); }
    FractionWithin(x, throttle);
    assert RiskBudget(cfg, equity, throttle) == x * throttle;
  }

  lemma BudgetIsPositive(cfg: RiskConfig, equity: real, throttle: real)
    requires cfg.Valid() && equity > 0.0 && throttle > 0.0
    ensures RiskBudget(cfg, equity, throttle) > 0.0
  {
    MulStrict(0.0, equity, cfg.riskPerTrade);
    MulStrict(0.0, equity * cfg.riskPerTrade, throttle);
  }

  lemma ThrottledToNothing(cfg: RiskConfig, desired: real)
    ensures ThrottledExposure(cfg, desired, 0.0) == 0.0
  {
  }

  /** Every basis built from a valid configuration and a positive price and equity is usable. */
  lemma BasisIsSound(cfg: RiskConfig, s: State, signal: Signal, volatility: real, fair: FairValue, direct: Book,
                     account: Account, drawdownEquity: real, equity: real)
    requires cfg.Valid() && equity > 0.0 && fair.price > 0.0
    ensures Usable(cfg, BasisOf(cfg, s, signal, volatility, fair, direct, account, drawdownEquity, equity))
  {
    hide ThrottledExposure, NotionalOf, RiskBudget, AbsoluteCap, ExposureOf, DepthCap;
    ThrottleIsFraction(cfg, s, drawdownEquity);
    hide Throttle;
    var throttle := Throttle(cfg, s, drawdownEquity);
    ThrottledExposureIsBounded(cfg, signal.desiredExposure, throttle, equity);
    BudgetBelowOpenRisk(cfg, equity, throttle);
    if throttle > 0.0 {
      BudgetIsPositive(cfg, equity, throttle);
    } else {
      ThrottledToNothing(cfg, signal.desiredExposure);
    }
  }

  lemma ThrottleIsFraction(cfg: RiskConfig, s: State, equity: real)
    ensures 0.0 <= Throttle(cfg, s, equity) <= 1.0
  {
  }

  /** The notional before risk scaling respects the desired size and, on the entry path, every other cap. */
  lemma UnscaledIsCapped(cfg: RiskConfig, b: Basis)
    requires Usable(cfg, b)
    ensures var n := UnscaledNotional(cfg, b);
      && 0.0 <= n <= b.desiredNotional
      && (!IsReduction(b) ==> n <= b.riskBudget / b.stopDistance && n <= b.liquidityCap)
  {
    hide IsReduction;
    var v := [b.desiredNotional, b.riskBudget / b.stopDistance, b.liquidityCap, b.absoluteCap];
    assert 0.0 / b.stopDistance == 0.0;
    DivMonotone(0.0, b.riskBudget, b.stopDistance);
    LeastNonNegativeIsLeast(v);
    var m := LeastNonNegative(v);
    hide LeastNonNegative;
    assert v[0] >= 0.0 && v[1] >= 0.0 && v[2] >= 0.0;
    assert m.value <= v[0] && m.value <= v[1] && m.value <= v[2];
  }

  // ---- Scaling ----------------------------------------------------------------------------------

  /** A sized position: notional and quantity agree at the price, with the quantity on the desired side. */
  predicate Coherent(b: Basis, z: Sized) {
    && z.notional >= 0.0 && z.qty * b.price == Sign(b.desired) * z.notional
    && z.risk >= 0.0
  }

  lemma ScalingKeepsCoherent(b: Basis, z: Sized, cap: real)
    requires Coherent(b, z) && 0.0 <= cap < z.risk
    ensures Coherent(b, ScaledTo(z, cap)) && ScaledTo(z, cap).notional <= z.notional
    ensures ScaledTo(z, cap).risk == cap
  {
    var k := cap / z.risk;
    assert k * z.risk == cap;
    QuotientIsFraction(cap, z.risk, k);
    ScalingByFraction(b, z, k, cap);
  }

  lemma ScalingByFraction(b: Basis, z: Sized, k: real, risk: real)
    requires Coherent(b, z) && 0.0 <= k < 1.0 && risk >= 0.0
    ensures Coherent(b, ScaledBy(z, k, risk)) && ScaledBy(z, k, risk).notional <= z.notional
  {
    ScaledNotional(z, k, risk);
    ScaledQuantity(z, k, risk, b.price, Sign(b.desired));
    hide ScaledBy, Sign;
  }

  lemma ScaledNotional(z: Sized, k: real, risk: real)
    requires z.notional >= 0.0 && 0.0 <= k <= 1.0
    ensures 0.0 <= ScaledBy(z, k, risk).notional <= z.notional
    ensures ScaledBy(z, k, risk).risk == risk
  {
    hide Times;
    FractionWithin(z.notional, k);
  }

  lemma ScaledQuantity(z: Sized, k: real, risk: real, price: real, sign: real)
    requires z.qty * price == sign * z.notional
    ensures ScaledBy(z, k, risk).qty * price == sign * ScaledBy(z, k, risk).notional
  {
    Reassociate(z.qty, k, price, sign, z.notional);
  }

  lemma QuotientIsFraction(x: real, y: real, k: real)
    requires 0.0 <= x < y && k * y == x
    ensures 0.0 <= k < 1.0
  {
    if k < 0.0 {
      MulStrict(k, 0.0, y);
    }
    if k >= 1.0 {
      MulMonotone(1.0, k, y);
    }
  }

  lemma Reassociate(q: real, k: real, p: real, s: real, n: real)
    requires q * p == s * n
    ensures q * k * p == s * (n * k)
  {
    assert q * k * p == q * p * k;
    assert s * (n * k) == s * n * k;
  }

  lemma ScaledIsCoherent(cfg: RiskConfig, b: Basis, z: Sized)
    requires Usable(cfg, b) && Coherent(b, z)
    ensures var w := BudgetScaled(b, OpenRiskScaled(cfg, b, z));
      && Coherent(b, w) && w.notional <= z.notional
      && (!IsReduction(b) ==> w.risk <= OpenRiskCap(cfg, b) && w.risk <= b.riskBudget + 1e-6)
      && (IsReduction(b) ==> w == z)
      && (z.risk <= b.riskBudget ==> w == z)
  {
    hide ScaledTo, Coherent, IsReduction, OpenRiskCap;
    RiskIsNonNegative(b, z);
    var w := OpenRiskScaled(cfg, b, z);
    if !IsReduction(b) && z.risk > OpenRiskCap(cfg, b) {
      ScalingKeepsCoherent(b, z, OpenRiskCap(cfg, b));
    }
    if !IsReduction(b) && w.risk > b.riskBudget + 1e-6 {
      ScalingKeepsCoherent(b, w, b.riskBudget);
    }
  }

  lemma RiskIsNonNegative(b: Basis, z: Sized)
    requires Coherent(b, z)
    ensures z.risk >= 0.0
  {
  }

  lemma QuantityAgrees(sign: real, notional: real, price: real)
    requires price > 0.0
    ensures QuantityOf(sign, notional, price) * price == sign * notional
  {
  }

  lemma StopRiskIsNonNegative(b: Basis, p: Position, qty: real)
    ensures StopRisk(b, p, qty) >= 0.0
  {
    hide StopPrice, EntryReference;
    var stop, entry := StopPrice(b), EntryReference(b, p, qty);
    MulMonotone(0.0, Abs(qty), Max(0.0, entry - stop));
    MulMonotone(0.0, Abs(qty), Max(0.0, stop - entry));
  }

  /** The whole pipeline: coherent, within the desired size, and within every cap of the path taken. */
  lemma SizingIsSound(cfg: RiskConfig, b: Basis, p: Position)
    requires Usable(cfg, b)
    ensures var z := Sizing(cfg, b, p);
      && Coherent(b, z) && z.notional <= b.desiredNotional
      && (!IsReduction(b) ==>
            z.notional <= b.riskBudget / b.stopDistance && z.notional <= b.liquidityCap
            && z.risk <= OpenRiskCap(cfg, b) && z.risk <= b.riskBudget + 1e-6)
  {
    hide UnscaledNotional, StopRisk, QuantityOf, BudgetScaled, OpenRiskScaled, OpenRiskCap, IsReduction;
    var n := UnscaledNotional(cfg, b);
    var q := QuantityOf(Sign(b.desired), n, b.price);
    UnscaledIsCapped(cfg, b);
    QuantityAgrees(Sign(b.desired), n, b.price);
    StopRiskIsNonNegative(b, p, q);
    ScaledIsCoherent(cfg, b, Sized(n, q, StopRisk(b, p, q)));
  }

  // ---- Sides and gaps -----------------------------------------------------------------------------

  lemma SideOf(b: Basis, z: Sized)
    requires Coherent(b, z) && b.price > 0.0
    ensures z.qty > 0.0 <==> b.desired > 0.0 && z.notional > 0.0
    ensures z.qty < 0.0 <==> b.desired < 0.0 && z.notional > 0.0
    ensures z.qty == 0.0 <==> b.desired == 0.0 || z.notional == 0.0
    ensures b.desired != 0.0 ==> Abs(z.qty) * b.price == z.notional
  {
    if z.qty > 0.0 {
      MulStrict(0.0, z.qty, b.price);
    } else if z.qty < 0.0 {
      MulStrict(z.qty, 0.0, b.price);
    }
    Negate(z.qty, b.price);
  }

  /** A quantity times the gap between a price and its stop is the notional times the stop distance. */
  lemma StopGap(q: real, price: real, distance: real, notional: real)
    requires q >= 0.0 && price > 0.0 && distance > 0.0
    ensures price - Times(price, 1.0 - distance) == Times(price, distance) > 0.0
    ensures Times(price, 1.0 + distance) - price == Times(price, distance)
    ensures Times(price, 1.0 + distance) > 0.0
    ensures Times(price, 1.0 - distance) > 0.0 <==> distance < 1.0
    ensures q * price == notional ==> Times(q, Times(price, distance)) == Times(notional, distance)
    ensures Times(0.0, distance) == 0.0
  {
    MulStrict(0.0, price, distance);
    Expand(price, 1.0, distance);
    SignOfProduct(1.0 - distance, price);
    assert q * (price * distance) == q * price * distance;
  }

  lemma SignOfProduct(x: real, m: real)
    requires m > 0.0
    ensures Times(m, x) > 0.0 <==> x > 0.0
  {
    if x > 0.0 {
      MulStrict(0.0, x, m);
    } else {
      MulMonotone(x, 0.0, m);
    }
  }

  // ---- The decision -----------------------------------------------------------------------------

  /** The basis a reading is sized from. */
  function ReadingBasis(cfg: RiskConfig, s: State, r: Reading): Basis
    requires cfg.Valid()
  {
    var de := DrawdownEquity(cfg, r.account);
    BasisOf(cfg, s, r.signal, r.volatility, r.fair, r.direct, r.account, de, Min(de, cfg.capitalBase))
  }

  predicate EntryPath(cfg: RiskConfig, s: State, r: Reading)
    requires cfg.Valid()
  {
    Evaluated(cfg, s, r).allowed && !r.signal.noNewEntries
  }

  /** An allowed target is the sized one, and the projections that allowed it are within the gross cap. */
  lemma AllowedIsSized(cfg: RiskConfig, s: State, r: Reading)
    requires cfg.Valid() && EntryPath(cfg, s, r)
    ensures var b := ReadingBasis(cfg, s, r);
      && r.fair.price > 0.0 && Usable(cfg, b) && b.price == r.fair.price
      && Evaluated(cfg, s, r).target == TargetOf(b, Sizing(cfg, b, r.position))
      && WorstCase(b, Sizing(cfg, b, r.position).notional, PendingOpening(r.account.openOrders)) <= b.absoluteCap + 1e-6
  {
    hide Sizing, WorstCase, TargetOf, PendingOpening;
    var de := DrawdownEquity(cfg, r.account);
    BasisIsSound(cfg, s, r.signal, r.volatility, r.fair, r.direct, r.account, de, Min(de, cfg.capitalBase));
    hide BasisOf;
  }

  /**
   * Sizing soundness: the target's quantity and notional agree at the fair price on the desired side; the notional is
   * within the throttled desired exposure and so within the gross cap; an entry also respects the liquidity cap, its
   * stop distance on the whole notional the budget, and its reported risk the budget and the open-risk cap; current and
   * pending exposure are within the gross cap.
   */
  lemma TargetIsSound(cfg: RiskConfig, s: State, r: Reading)
    requires cfg.Valid() && EntryPath(cfg, s, r)
    ensures var b, t := ReadingBasis(cfg, s, r), Evaluated(cfg, s, r).target;
      && Times(Abs(t.quantity), r.fair.price) == t.notional
      && (t.quantity > 0.0 <==> b.desired > 0.0 && t.notional > 0.0)
      && (t.quantity < 0.0 <==> b.desired < 0.0 && t.notional > 0.0)
      && 0.0 <= t.notional <= b.desiredNotional <= b.absoluteCap
      && (!IsReduction(b) ==>
            t.notional <= b.liquidityCap && Times(t.notional, t.stopDistance) <= b.riskBudget
            && t.actualStopRisk <= OpenRiskCap(cfg, b) && t.actualStopRisk <= b.riskBudget + 1e-6)
      && Abs(Times(r.account.Net(), r.fair.price)) <= b.absoluteCap + 1e-6
      && Abs(Times(r.account.Net() + PendingOpening(r.account.openOrders), r.fair.price)) <= b.absoluteCap + 1e-6
  {
    AllowedIsSized(cfg, s, r);
    hide Evaluated;
    var b := ReadingBasis(cfg, s, r);
    assert b.currentQty == r.account.Net();
    hide BasisOf, ReadingBasis;
    SizingIsSound(cfg, b, r.position);
    hide Sizing;
    var z := Sizing(cfg, b, r.position);
    SideOf(b, z);
    ZeroDesired(b, z);
    if !IsReduction(b) {
      BudgetPerDistance(z.notional, b.riskBudget, b.stopDistance);
    }
    hide Times, IsReduction, OpenRiskCap, Coherent, Usable;
  }

  /** The target's exposure is its signed notional over equity, and an entry takes at most its share of the depth. */
  lemma TargetInMarketTerms(cfg: RiskConfig, s: State, r: Reading)
    requires cfg.Valid() && EntryPath(cfg, s, r)
    ensures var b, t := ReadingBasis(cfg, s, r), Evaluated(cfg, s, r).target;
      && Times(t.exposure, Min(DrawdownEquity(cfg, r.account), cfg.capitalBase)) == Times(Sign(b.desired), t.notional)
      && (!IsReduction(b) && Times(r.direct.depthQuote, cfg.liquidityParticipation) > 0.0 ==>
            t.notional <= Times(r.direct.depthQuote, cfg.liquidityParticipation))
  {
    AllowedIsSized(cfg, s, r);
    TargetIsSound(cfg, s, r);
    hide Evaluated, ReadingBasis, Sizing, Usable, Times, IsReduction, DrawdownEquity, WorstCase, OpenRiskCap, Coherent;
    var b := ReadingBasis(cfg, s, r);
    ReadingFigures(cfg, s, r);
    TargetFigures(b, Sizing(cfg, b, r.position));
  }

  lemma ReadingFigures(cfg: RiskConfig, s: State, r: Reading)
    requires cfg.Valid()
    ensures var b, depth := ReadingBasis(cfg, s, r), Times(r.direct.depthQuote, cfg.liquidityParticipation);
      && b.equity == Min(DrawdownEquity(cfg, r.account), cfg.capitalBase) > 0.0
      && (depth > 0.0 ==> b.liquidityCap == depth)
  {
    hide Throttle, ThrottledExposure, NotionalOf, RiskBudget, AbsoluteCap, ExposureOf, StopDistance;
  }

  lemma TargetFigures(b: Basis, z: Sized)
    requires b.equity > 0.0
    ensures Times(TargetOf(b, z).exposure, b.equity) == Times(Sign(b.desired), z.notional)
    ensures TargetOf(b, z).notional == z.notional
  {
    hide StopPrice;
    QuotientTimes(Sign(b.desired) * z.notional, b.equity);
  }

  /** The throttled exposure keeps to the side of the signal. */
  lemma DesiredFollowsSignal(cfg: RiskConfig, s: State, r: Reading)
    requires cfg.Valid()
    ensures var desired := ReadingBasis(cfg, s, r).desired;
      (desired > 0.0 ==> r.signal.desiredExposure > 0.0) && (desired < 0.0 ==> r.signal.desiredExposure < 0.0)
  {
    hide NotionalOf, RiskBudget, AbsoluteCap, ExposureOf, DepthCap, Throttle, ThrottledExposure;
    ThrottleIsFraction(cfg, s, DrawdownEquity(cfg, r.account));
    ThrottledKeepsSide(cfg, r.signal.desiredExposure, Throttle(cfg, s, DrawdownEquity(cfg, r.account)));
  }

  lemma ThrottledKeepsSide(cfg: RiskConfig, desired: real, throttle: real)
    requires cfg.grossExposure > 0.0 && throttle >= 0.0
    ensures ThrottledExposure(cfg, desired, throttle) > 0.0 ==> desired > 0.0
    ensures ThrottledExposure(cfg, desired, throttle) < 0.0 ==> desired < 0.0
  {
    var x := Clamp(desired, -cfg.grossExposure, cfg.grossExposure);
    if x >= 0.0 {
      MulMonotone(0.0, x, throttle);
    }
    if x <= 0.0 {
      MulMonotone(x, 0.0, throttle);
    }
  }

  lemma ZeroDesired(b: Basis, z: Sized)
    requires Coherent(b, z) && b.price > 0.0 && z.notional <= b.desiredNotional == NotionalOf(b.desired, b.equity)
    ensures Times(Abs(z.qty), b.price) == z.notional
    ensures b.desired == 0.0 ==> z.notional == 0.0
  {
    SideOf(b, z);
    if b.desired == 0.0 {
      assert 0.0 * b.equity == 0.0 && 0.0 * b.price == 0.0;
    }
  }

  lemma BudgetPerDistance(n: real, budget: real, distance: real)
    requires distance > 0.0 && n <= budget / distance
    ensures Times(n, distance) <= budget
  {
    var q := budget / distance;
    assert q * distance == budget;
    MulMonotone(n, q, distance);
  }

  lemma ExposureTimesEquity(qty: real, price: real, equity: real)
    requires equity > 0.0
    ensures Times(Abs(ExposureOf(qty, price, equity)), equity) == Abs(Times(qty, price))
  {
    var e := ExposureOf(qty, price, equity);
    assert e * equity == qty * price;
    hide ExposureOf;
    if e < 0.0 {
      MulStrict(e, 0.0, equity);
      Negate(e, equity);
    } else {
      MulMonotone(0.0, e, equity);
    }
  }

  lemma ProductOfSize(q: real, price: real)
    requires price > 0.0
    ensures Abs(Times(q, price)) == Times(Abs(q), price)
  {
    Negate(q, price);
    if q < 0.0 {
      MulStrict(q, 0.0, price);
    } else {
      MulMonotone(0.0, q, price);
    }
  }

  lemma SmallerProduct(x: real, y: real, m: real)
    requires m > 0.0 && Times(x, m) < Times(y, m)
    ensures x < y
  {
    if y <= x {
      MulMonotone(y, x, m);
    }
  }

  /** A reduction never grows the position: it asks for strictly less of the same side, or for none. */
  lemma ReductionNeverGrows(cfg: RiskConfig, s: State, r: Reading)
    requires cfg.Valid() && EntryPath(cfg, s, r) && IsReduction(ReadingBasis(cfg, s, r))
    ensures var t := Evaluated(cfg, s, r).target;
      t.quantity == 0.0 || (SameSign(t.quantity, r.account.Net()) && Abs(t.quantity) < Abs(r.account.Net()))
  {
    AllowedIsSized(cfg, s, r);
    TargetIsSound(cfg, s, r);
    hide Evaluated;
    var b := ReadingBasis(cfg, s, r);
    assert b.currentQty == r.account.Net();
    hide BasisOf, ReadingBasis, Sizing;
    var z := Sizing(cfg, b, r.position);
    if b.desired != 0.0 && z.qty != 0.0 {
      ExposureTimesEquity(b.currentQty, b.price, b.equity);
      ProductOfSize(b.currentQty, b.price);
      DesiredBelowCurrent(b.desired, b.currentExposure, b.equity);
      ExposureSign(b.currentQty, b.price, b.equity);
      hide Times, ExposureOf;
      SmallerProduct(Abs(z.qty), Abs(b.currentQty), b.price);
    }
  }

  lemma DesiredBelowCurrent(desired: real, current: real, equity: real)
    requires equity > 0.0 && Abs(desired) < Abs(current)
    ensures NotionalOf(desired, equity) < Times(Abs(current), equity)
  {
    MulStrict(Abs(desired), Abs(current), equity);
  }

  lemma ExposureSign(qty: real, price: real, equity: real)
    requires price > 0.0 && equity > 0.0
    ensures ExposureOf(qty, price, equity) > 0.0 <==> qty > 0.0
    ensures ExposureOf(qty, price, equity) < 0.0 <==> qty < 0.0
  {
    var e := ExposureOf(qty, price, equity);
    assert e * equity == qty * price;
    SignOfProduct(e, equity);
    SignOfProduct(-e, equity);
    SignOfProduct(qty, price);
    SignOfProduct(-qty, price);
    Negate(e, equity);
    Negate(qty, price);
  }
}
