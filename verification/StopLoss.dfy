/** The loss of a target at its stop, and when the risk reported with it is that loss. */
module StopLoss {
  import opened Numbers
  import opened Domain
  import opened RiskManager
  import opened RiskSizing

  // ---- What is lost at the stop -------------------------------------------------------------------

  /** What is lost if the whole notional moves from the price to the stop. */
  function TrueStopLoss(notional: real, stopDistance: real): real {
    Times(notional, stopDistance)
  }

  /** What a target loses at its stop against its cost, counting what is already held at its average. */
  function LossAtStop(b: Basis, p: Position, qty: real): real {
    Times(Abs(qty), Max(0.0, OnSide(EntryReference(b, p, qty) - StopPrice(b), b.desired > 0.0)))
  }

  /** The inventory a target of this sign keeps or adds to. */
  function Inventory(p: Position, qty: real): real {
    if SameSign(qty, p.quantity) && p.averageEntry > 0.0 then Abs(p.quantity) else 0.0
  }

  /** How far the average of the inventory lies on the losing side of the price. */
  function UnderWater(b: Basis, p: Position): real {
    OnSide(p.averageEntry - b.price, b.desired > 0.0)
  }

  /** The quantity is on the desired side, or there is none. */
  predicate OnDesiredSide(b: Basis, qty: real) {
    qty == 0.0 || SameSign(qty, b.desired)
  }

  /** Scaling into a position values it at cost: what is held at its average, what is added at the price. */
  lemma ScaledEntryIsBlend(b: Basis, p: Position, qty: real)
    requires SameSign(qty, p.quantity) && p.averageEntry > 0.0
    ensures Abs(qty) <= Abs(p.quantity) ==> EntryReference(b, p, qty) == p.averageEntry
    ensures Abs(qty) >= Abs(p.quantity) ==>
      Times(EntryReference(b, p, qty), Abs(qty))
      == Times(p.averageEntry, Abs(p.quantity)) + Times(b.price, Abs(qty) - Abs(p.quantity))
  {
    var held, added := Abs(p.quantity), Max(0.0, Abs(qty) - Abs(p.quantity));
    QuotientTimes(held * p.averageEntry + added * b.price, Max(Abs(qty), held));
    ProductOverItself(held, p.averageEntry);
  }

  lemma ProductOverItself(q: real, price: real)
    requires q > 0.0
    ensures (q * price + 0.0) / q == price
  {
  }

  /** The cost of a target above the price is that of the inventory it keeps. */
  lemma CostAbovePrice(b: Basis, p: Position, qty: real)
    requires b.price > 0.0
    ensures Times(Abs(qty), EntryReference(b, p, qty) - b.price)
         == Times(Min(Inventory(p, qty), Abs(qty)), p.averageEntry - b.price)
  {
    var e, q, h := EntryReference(b, p, qty), Abs(qty), Abs(p.quantity);
    if SameSign(qty, p.quantity) && p.averageEntry > 0.0 {
      ScaledEntryIsBlend(b, p, qty);
      hide EntryReference;
      if q > h {
        Expand(q, e, b.price);
        Expand(h, p.averageEntry, b.price);
        Expand(b.price, q, h);
        assert Times(e, q) == q * e && Times(p.averageEntry, h) == h * p.averageEntry;
      }
    } else {
      assert e == b.price;
      TimesZero(q, p.averageEntry - b.price);
    }
  }

  lemma TimesZero(x: real, y: real)
    ensures Times(x, 0.0) == 0.0 == Times(0.0, y)
  {
  }

  /** The loss at the stop is that of the inventory kept, plus the stop distance on the whole notional. */
  lemma LossInParts(b: Basis, p: Position, qty: real)
    requires b.price > 0.0 && b.stopDistance > 0.0 && OnDesiredSide(b, qty)
    ensures LossAtStop(b, p, qty)
         == Max(0.0, Times(Min(Inventory(p, qty), Abs(qty)), UnderWater(b, p))
                     + Times(Abs(qty), Times(b.price, b.stopDistance)))
  {
    if qty == 0.0 {
      TimesZero(0.0, UnderWater(b, p));
      TimesZero(0.0, Times(b.price, b.stopDistance));
      TimesZero(0.0, Max(0.0, OnSide(EntryReference(b, p, qty) - StopPrice(b), b.desired > 0.0)));
    } else {
      CostAbovePrice(b, p, qty);
      StopGap(Abs(qty), b.price, b.stopDistance, 0.0);
      LossOfGap(Abs(qty), Min(Inventory(p, qty), Abs(qty)), EntryReference(b, p, qty) - b.price,
                p.averageEntry - b.price, Times(b.price, b.stopDistance), b.desired > 0.0);
      hide Times, EntryReference, Inventory;
    }
  }

  /** With the same product of quantity and gap on either side, the loss of both parts adds up. */
  lemma LossOfGap(q: real, m: real, gap: real, drop: real, d: real, long: bool)
    requires q >= 0.0 && Times(q, gap) == Times(m, drop)
    ensures Times(q, Max(0.0, OnSide(gap, long) + d)) == Max(0.0, Times(m, OnSide(drop, long)) + Times(q, d))
  {
    var x := OnSide(gap, long);
    assert Times(q, OnSide(gap, long)) == OnSide(Times(q, gap), long) by { Expand(q, 0.0, gap); }
    assert Times(m, OnSide(drop, long)) == OnSide(Times(m, drop), long) by { Expand(m, 0.0, drop); }
    TimesSum(q, x, d);
    TimesZero(q, 0.0);
    hide Times;
    if x + d >= 0.0 {
      ProductSign(q, x + d);
    } else {
      ProductSign(q, -(x + d));
      NegatedFactor(q, x + d);
    }
  }

  lemma TimesSum(q: real, x: real, y: real)
    ensures Times(q, x + y) == Times(q, x) + Times(q, y)
  {
  }

  lemma NegatedFactor(q: real, x: real)
    ensures Times(q, -x) == -Times(q, x)
  {
  }

  lemma ProductSign(q: real, x: real)
    requires q >= 0.0 && x >= 0.0
    ensures Times(q, x) >= 0.0
  {
  }

  // ---- What scaling does to it --------------------------------------------------------------------

  function UnscaledQuantity(cfg: RiskConfig, b: Basis): real
    requires b.stopDistance > 0.0 && b.price > 0.0
  {
    QuantityOf(Sign(b.desired), UnscaledNotional(cfg, b), b.price)
  }

  /** The stop of a wanted long is not above zero, which the code takes for no stop. */
  predicate StopVanishes(cfg: RiskConfig, b: Basis)
    requires b.stopDistance > 0.0
  {
    b.desired > 0.0 && UnscaledNotional(cfg, b) > 0.0 && b.stopDistance >= 1.0
  }

  /** The simulated risk of an entry is beyond the open-risk cap or the budget, so that the target is scaled down. */
  predicate Rescaled(cfg: RiskConfig, b: Basis, p: Position)
    requires b.stopDistance > 0.0 && b.price > 0.0
  {
    var risk := StopRisk(b, p, UnscaledQuantity(cfg, b));
    !IsReduction(b) && (risk > OpenRiskCap(cfg, b) || risk > b.riskBudget + 1e-6)
  }

  /** The unscaled target adds to an inventory whose average is not the price. */
  predicate AddsToInventory(cfg: RiskConfig, b: Basis, p: Position)
    requires b.stopDistance > 0.0 && b.price > 0.0
  {
    var q := UnscaledQuantity(cfg, b);
    0.0 < Inventory(p, q) < Abs(q)
  }

  /** The risk a target is scaled down to. */
  function AllowedRisk(cfg: RiskConfig, b: Basis, p: Position): real
    requires b.stopDistance > 0.0 && b.price > 0.0
  {
    var risk, cap := StopRisk(b, p, UnscaledQuantity(cfg, b)), OpenRiskCap(cfg, b);
    if !Rescaled(cfg, b, p) then risk else if Min(risk, cap) > b.riskBudget + 1e-6 then b.riskBudget else cap
  }

  /** The share of the unscaled target that is left. */
  function Scale(cfg: RiskConfig, b: Basis, p: Position): real
    requires b.stopDistance > 0.0 && b.price > 0.0
  {
    var risk := StopRisk(b, p, UnscaledQuantity(cfg, b));
    if Rescaled(cfg, b, p) && risk > 0.0 then AllowedRisk(cfg, b, p) / risk else 1.0
  }

  /** Sizing reports the allowed risk and keeps that share of the notional and the quantity. */
  lemma SizingIsScaled(cfg: RiskConfig, b: Basis, p: Position)
    requires Usable(cfg, b)
    ensures var z, k, n := Sizing(cfg, b, p), Scale(cfg, b, p), UnscaledNotional(cfg, b);
      && z.risk == AllowedRisk(cfg, b, p)
      && z.notional == Times(n, k) && z.qty == Times(UnscaledQuantity(cfg, b), k)
      && (Rescaled(cfg, b, p) ==> 0.0 < k < 1.0)
      && Times(StopRisk(b, p, UnscaledQuantity(cfg, b)), k) == z.risk
  {
    hide UnscaledNotional, StopRisk, QuantityOf, OpenRiskCap, IsReduction, NotionalOf, AbsoluteCap, ExposureOf, Times;
    var n, q, cap := UnscaledNotional(cfg, b), UnscaledQuantity(cfg, b), OpenRiskCap(cfg, b);
    var risk := StopRisk(b, p, q);
    TimesOnce(n);
    TimesOnce(q);
    TimesOnce(risk);
    if Rescaled(cfg, b, p) {
      NotReducingWantsSomething(b);
      ShareOf(AllowedRisk(cfg, b, p), risk);
      if risk > cap {
        ShareOf(cap, risk);
        ScaledTwice(n, cap, risk, b.riskBudget);
        ScaledTwice(q, cap, risk, b.riskBudget);
      }
    }
  }

  lemma NotReducingWantsSomething(b: Basis)
    requires !IsReduction(b)
    ensures b.desired != 0.0
  {
  }

  lemma TimesOnce(x: real)
    ensures Times(x, 1.0) == x
  {
  }

  lemma ShareOf(part: real, whole: real)
    requires 0.0 < part < whole
    ensures 0.0 < part / whole < 1.0 && Times(whole, part / whole) == part
  {
    var k := part / whole;
    assert k * whole == part;
    QuotientIsFraction(part, whole, k);
  }

  lemma ScaledTwice(x: real, cap: real, risk: real, budget: real)
    requires cap > 0.0 && risk > 0.0
    ensures Times(Times(x, cap / risk), budget / cap) == Times(x, budget / risk)
  {
    var k, l := cap / risk, budget / cap;
    assert k * risk == cap && l * cap == budget;
    assert l * k * risk == budget by { assert l * k * risk == l * (k * risk); }
    assert l * k == budget / risk;
    assert x * k * l == x * (l * k);
  }

  /**
   * What scaling leaves of the loss of a target: the part of the inventory kept does not shrink in proportion. h is the
   * inventory, g how far it is under water, q the unscaled quantity, d the stop distance per unit, k the share left.
   */
  lemma ScaledLoss(h: real, g: real, q: real, d: real, k: real)
    requires h >= 0.0 && q >= 0.0 && 0.0 < k < 1.0 && Times(Min(h, q), g) + Times(q, d) > 0.0
    ensures var loss := Max(0.0, Times(Min(h, Times(q, k)), g) + Times(Times(q, k), d));
      var share := Times(Times(Min(h, q), g) + Times(q, d), k);
      && (loss == share <==> !(0.0 < h < q && g != 0.0))
      && (loss > share <==> 0.0 < h < q && g > 0.0)
  {
    hide Times;
    var m, n := Min(h, q), Min(h, Times(q, k));
    PartsOfLoss(m, n, g, q, d, k);
    SignOfFactor(Times(m, g) + Times(q, d), k);
    InventoryShare(h, q, k);
    SignOfFactor(n - Times(m, k), g);
  }

  lemma PartsOfLoss(m: real, n: real, g: real, q: real, d: real, k: real)
    ensures Times(n, g) + Times(Times(q, k), d)
         == Times(Times(m, g) + Times(q, d), k) + Times(n - Times(m, k), g)
  {
    Distribute(m * g, q * d, k);
    assert q * k * d == q * d * k;
    assert (n - m * k) * g == n * g - m * k * g;
    assert m * k * g == m * g * k;
  }

  lemma InventoryShare(h: real, q: real, k: real)
    requires h >= 0.0 && q >= 0.0 && 0.0 < k < 1.0
    ensures var more := Min(h, Times(q, k)) - Times(Min(h, q), k);
      more >= 0.0 && (more > 0.0 <==> 0.0 < h < q)
  {
    FractionOf(h, k);
    FractionOf(q, k);
    TimesMonotone(Min(h, q), q, k);
    if 0.0 < h < q {
      TimesStrict(h, q, k);
      MulStrict(k, 1.0, h);
    }
    if h == 0.0 {
      TimesZero(0.0, k);
    }
  }

  lemma SignOfFactor(m: real, g: real)
    requires m >= 0.0
    ensures Times(m, g) > 0.0 <==> m > 0.0 && g > 0.0
    ensures Times(m, g) < 0.0 <==> m > 0.0 && g < 0.0
  {
    if m > 0.0 {
      SignOfProduct(g, m);
      SignOfProduct(-g, m);
      NegatedFactor(m, g);
    }
  }

  // ---- Reported and true risk ---------------------------------------------------------------------

  /** The simulated risk is the loss at the stop, but for a stop that vanishes. */
  lemma StopRiskIsLoss(b: Basis, p: Position, qty: real)
    requires b.price > 0.0 && b.stopDistance > 0.0 && OnDesiredSide(b, qty)
    ensures StopRisk(b, p, qty) == if b.desired > 0.0 && b.stopDistance >= 1.0 then 0.0 else LossAtStop(b, p, qty)
  {
    StopGap(0.0, b.price, b.stopDistance, 0.0);
    TimesZero(0.0, Max(0.0, OnSide(EntryReference(b, p, qty) - StopPrice(b), b.desired > 0.0)));
    hide Times, EntryReference;
  }

  lemma EntryIsPositive(b: Basis, p: Position, qty: real)
    requires b.price > 0.0 && qty != 0.0
    ensures EntryReference(b, p, qty) > 0.0
  {
    if SameSign(qty, p.quantity) && p.averageEntry > 0.0 {
      ScaledEntryIsBlend(b, p, qty);
      var e, q, h := EntryReference(b, p, qty), Abs(qty), Abs(p.quantity);
      hide EntryReference;
      if q > h {
        SignOfProduct(h, p.averageEntry);
        SignOfProduct(q - h, b.price);
        SignOfProduct(e, q);
        assert Times(e, q) == Times(q, e);
      }
    }
  }

  /** A long whose stop vanishes loses something, and reports nothing. */
  lemma VanishedStopLoses(b: Basis, p: Position, qty: real)
    requires b.price > 0.0 && b.stopDistance >= 1.0 && b.desired > 0.0 && qty > 0.0
    ensures LossAtStop(b, p, qty) > 0.0
  {
    EntryIsPositive(b, p, qty);
    StopGap(0.0, b.price, b.stopDistance, 0.0);
    SignOfProduct(EntryReference(b, p, qty) - StopPrice(b), qty);
    hide EntryReference, StopPrice;
  }

  lemma UnscaledIsCoherent(cfg: RiskConfig, b: Basis, p: Position)
    requires Usable(cfg, b)
    ensures var n, q := UnscaledNotional(cfg, b), UnscaledQuantity(cfg, b);
      && Coherent(b, Sized(n, q, StopRisk(b, p, q))) && OnDesiredSide(b, q)
      && (q > 0.0 <==> b.desired > 0.0 && n > 0.0)
  {
    hide UnscaledNotional, StopRisk, QuantityOf, NotionalOf, AbsoluteCap, ExposureOf, OpenRiskCap;
    var n, q := UnscaledNotional(cfg, b), UnscaledQuantity(cfg, b);
    UnscaledIsCapped(cfg, b);
    QuantityAgrees(Sign(b.desired), n, b.price);
    StopRiskIsNonNegative(b, p, q);
    SideOf(b, Sized(n, q, StopRisk(b, p, q)));
  }

  /** Scaling keeps the side, and so the inventory that counts. */
  lemma ScaledSide(b: Basis, p: Position, q: real, k: real)
    requires OnDesiredSide(b, q) && k > 0.0
    ensures OnDesiredSide(b, Times(q, k)) && Inventory(p, Times(q, k)) == Inventory(p, q)
    ensures Abs(Times(q, k)) == Times(Abs(q), k)
  {
    SignOfProduct(q, k);
    SignOfProduct(-q, k);
    Negate(q, k);
    assert Times(k, q) == Times(q, k) && Times(k, -q) == -Times(q, k);
    TimesZero(0.0, k);
  }

  /** The loss of a sized target in its parts. */
  lemma SizedLossInParts(b: Basis, p: Position, z: Sized)
    requires Coherent(b, z) && b.price > 0.0 && b.stopDistance > 0.0 && (b.desired == 0.0 ==> z.notional == 0.0)
    ensures LossAtStop(b, p, z.qty)
         == Max(0.0, Times(Min(Inventory(p, z.qty), Abs(z.qty)), UnderWater(b, p))
                     + TrueStopLoss(z.notional, b.stopDistance))
  {
    SideOf(b, z);
    hide Times, LossAtStop, Inventory, UnderWater;
    LossInParts(b, p, z.qty);
    NotionalOfSize(b, z);
    StopGap(Abs(z.qty), b.price, b.stopDistance, z.notional);
  }

  lemma NotionalOfSize(b: Basis, z: Sized)
    requires Coherent(b, z) && b.price > 0.0 && (b.desired == 0.0 ==> z.notional == 0.0)
    ensures Abs(z.qty) * b.price == z.notional
  {
    SideOf(b, z);
    TimesZero(0.0, b.price);
  }

  lemma RescaledLoss(cfg: RiskConfig, b: Basis, p: Position)
    requires Usable(cfg, b) && Rescaled(cfg, b, p)
    ensures var z := Sizing(cfg, b, p);
      && !StopVanishes(cfg, b)
      && (z.risk == LossAtStop(b, p, z.qty) <==> !(AddsToInventory(cfg, b, p) && UnderWater(b, p) != 0.0))
      && (z.risk < LossAtStop(b, p, z.qty) <==> AddsToInventory(cfg, b, p) && UnderWater(b, p) > 0.0)
  {
    var z, q, k := Sizing(cfg, b, p), UnscaledQuantity(cfg, b), Scale(cfg, b, p);
    SizingIsScaled(cfg, b, p);
    UnscaledIsCoherent(cfg, b, p);
    StopRiskIsLoss(b, p, q);
    LossInParts(b, p, q);
    ScaledSide(b, p, q, k);
    LossInParts(b, p, z.qty);
    hide Sizing, Scale, StopRisk, LossAtStop, UnscaledNotional, NotionalOf, AbsoluteCap, ExposureOf, Times, Coherent,
         UnscaledQuantity, Inventory, UnderWater;
    ScaledLoss(Inventory(p, q), UnderWater(b, p), Abs(q), Times(b.price, b.stopDistance), k);
  }

  lemma UnscaledLoss(cfg: RiskConfig, b: Basis, p: Position)
    requires Usable(cfg, b) && !Rescaled(cfg, b, p)
    ensures var z := Sizing(cfg, b, p);
      && (z.risk == LossAtStop(b, p, z.qty) <==> !StopVanishes(cfg, b))
      && (z.risk < LossAtStop(b, p, z.qty) <==> StopVanishes(cfg, b))
  {
    var z, q := Sizing(cfg, b, p), UnscaledQuantity(cfg, b);
    SizingIsScaled(cfg, b, p);
    UnscaledIsCoherent(cfg, b, p);
    TimesOnce(q);
    StopRiskIsLoss(b, p, q);
    if StopVanishes(cfg, b) {
      VanishedStopLoses(b, p, q);
    }
    hide Sizing, StopRisk, UnscaledNotional, NotionalOf, AbsoluteCap, ExposureOf, Times, Coherent, UnscaledQuantity,
         EntryReference, StopPrice;
    TimesZero(0.0, Max(0.0, OnSide(EntryReference(b, p, q) - StopPrice(b), b.desired > 0.0)));
  }

  /**
   * The reported stop risk of an allowed target, whatever is held already, is the true loss at the stop unless the stop
   * of a wanted long vanishes, or the target adds to an inventory bought at another price and its simulated risk is
   * scaled down: the report shrinks in proportion, the loss of the inventory does not. Exactly in these cases it is
   * not, and it is too little exactly when the stop vanishes or that inventory is under water.
   */
  lemma ReportedRiskIsTrueLossIff(cfg: RiskConfig, s: State, r: Reading)
    requires cfg.Valid() && EntryPath(cfg, s, r)
    ensures var b, p, t := ReadingBasis(cfg, s, r), r.position, Evaluated(cfg, s, r).target;
      var loss := LossAtStop(b, p, t.quantity);
      var vanishes, shrinks := StopVanishes(cfg, b), Rescaled(cfg, b, p) && AddsToInventory(cfg, b, p);
      && (t.actualStopRisk == loss <==> !vanishes && !(shrinks && UnderWater(b, p) != 0.0))
      && (t.actualStopRisk < loss <==> vanishes || (shrinks && UnderWater(b, p) > 0.0))
  {
    AllowedIsSized(cfg, s, r);
    hide Evaluated;
    var b := ReadingBasis(cfg, s, r);
    hide BasisOf, ReadingBasis;
    if Rescaled(cfg, b, r.position) {
      RescaledLoss(cfg, b, r.position);
    } else {
      UnscaledLoss(cfg, b, r.position);
    }
    hide Sizing, LossAtStop, Rescaled, StopVanishes, AddsToInventory, UnderWater;
  }

  /**
   * The true loss of an allowed target: that of the inventory it keeps, plus the stop distance on its whole notional,
   * which for an entry is within the budget. So an entry can pass the budget only by what its inventory has lost
   * already; from flat it never does.
   */
  lemma TrueLossOfTarget(cfg: RiskConfig, s: State, r: Reading)
    requires cfg.Valid() && EntryPath(cfg, s, r)
    ensures var b, p, t := ReadingBasis(cfg, s, r), r.position, Evaluated(cfg, s, r).target;
      var kept := Times(Min(Inventory(p, t.quantity), Abs(t.quantity)), UnderWater(b, p));
      var loss := LossAtStop(b, p, t.quantity);
      && loss == Max(0.0, kept + TrueStopLoss(t.notional, t.stopDistance))
      && (p.quantity == 0.0 ==> loss == TrueStopLoss(t.notional, t.stopDistance))
      && (!IsReduction(b) ==> loss <= b.riskBudget + Max(0.0, kept))
      && (!IsReduction(b) && p.quantity == 0.0 ==> t.actualStopRisk <= b.riskBudget <= OpenRiskCap(cfg, b))
  {
    AllowedIsSized(cfg, s, r);
    TargetIsSound(cfg, s, r);
    if r.position.quantity == 0.0 {
      ReportedRiskIsTrueLossIff(cfg, s, r);
    }
    hide Evaluated;
    var b := ReadingBasis(cfg, s, r);
    hide BasisOf, ReadingBasis, Sizing, LossAtStop, AbsoluteCap, ExposureOf, Rescaled, Coherent, IsReduction,
         StopRisk, UnscaledNotional, UnscaledQuantity;
    SizingIsSound(cfg, b, r.position);
    ZeroDesired(b, Sizing(cfg, b, r.position));
    SizedLossInParts(b, r.position, Sizing(cfg, b, r.position));
    TimesZero(0.0, UnderWater(b, r.position));
    SignOfFactor(b.stopDistance, Evaluated(cfg, s, r).target.notional);
    hide Times;
  }

  /** The loss of a target as its unscaled quantity and the share that is left let it be foreseen. */
  function ForeseenLoss(cfg: RiskConfig, b: Basis, p: Position): real
    requires b.stopDistance > 0.0 && b.price > 0.0
  {
    var q, k := UnscaledQuantity(cfg, b), Scale(cfg, b, p);
    Max(0.0, Times(Min(Inventory(p, q), Times(Abs(q), k)), UnderWater(b, p))
             + TrueStopLoss(Times(UnscaledNotional(cfg, b), k), b.stopDistance))
  }

  lemma LossIsForeseen(cfg: RiskConfig, b: Basis, p: Position)
    requires Usable(cfg, b)
    ensures LossAtStop(b, p, Sizing(cfg, b, p).qty) == ForeseenLoss(cfg, b, p)
  {
    var z, q, k := Sizing(cfg, b, p), UnscaledQuantity(cfg, b), Scale(cfg, b, p);
    SizingIsScaled(cfg, b, p);
    UnscaledIsCoherent(cfg, b, p);
    SizingIsSound(cfg, b, p);
    ZeroDesired(b, z);
    SizedLossInParts(b, p, z);
    hide Sizing, Scale, LossAtStop, UnscaledNotional, NotionalOf, AbsoluteCap, ExposureOf, Times, Coherent,
         UnscaledQuantity, Inventory, UnderWater, Rescaled, StopRisk;
    if Rescaled(cfg, b, p) {
      ScaledSide(b, p, q, k);
    } else {
      ScaledSide(b, p, q, 1.0);
      NotRescaledScale(cfg, b, p);
    }
  }

  lemma NotRescaledScale(cfg: RiskConfig, b: Basis, p: Position)
    requires b.stopDistance > 0.0 && b.price > 0.0 && !Rescaled(cfg, b, p)
    ensures Scale(cfg, b, p) == 1.0
  {
  }

  /**
   * The true loss of an allowed entry passes the open-risk cap, or its own budget, exactly when the report is too small
   * and the loss foreseen from the unscaled target, its scale and the inventory passes it.
   */
  lemma LossPassesLimitsIff(cfg: RiskConfig, s: State, r: Reading)
    requires cfg.Valid() && EntryPath(cfg, s, r) && !IsReduction(ReadingBasis(cfg, s, r))
    ensures var b, p := ReadingBasis(cfg, s, r), r.position;
      var loss, foreseen := LossAtStop(b, p, Evaluated(cfg, s, r).target.quantity), ForeseenLoss(cfg, b, p);
      var short := StopVanishes(cfg, b)
                   || (Rescaled(cfg, b, p) && AddsToInventory(cfg, b, p) && UnderWater(b, p) > 0.0);
      && (loss > OpenRiskCap(cfg, b) <==> short && foreseen > OpenRiskCap(cfg, b))
      && (loss > b.riskBudget + 1e-6 <==> short && foreseen > b.riskBudget + 1e-6)
  {
    AllowedIsSized(cfg, s, r);
    TargetIsSound(cfg, s, r);
    ReportedRiskIsTrueLossIff(cfg, s, r);
    hide Evaluated;
    var b := ReadingBasis(cfg, s, r);
    hide BasisOf, ReadingBasis, Sizing, LossAtStop, ForeseenLoss, OpenRiskCap, Rescaled, StopVanishes, AddsToInventory,
         UnderWater, IsReduction;
    LossIsForeseen(cfg, b, r.position);
  }

  /** A tick that wants more of a unit bought at this average, with the price at 4000. */
  function Adding(average: real, exposure: real): Reading {
    Reading(
      1, Signal(exposure, false), 0.0, FairValue(true, 4000.0, 3999.0, 4001.0, 1.0, 0.0),
      Book(4000.0, 4001.0, 1.0, 1.0, 0.0, 1), Account(30000.0, 1.0, 0.0, 0.0, [], false, 1),
      NO_POSITION.(quantity := 1.0, averageEntry := average, initialStopFraction := 0.05, stopPrice := 0.95 * average,
                   bestPrice := average),
      false, false)
  }

  /**
   * Under the default configuration a target that adds to a unit bought ten above the price reports its whole budget of
   * 60 and can lose more than 61; with the unit bought at 4150 it can lose more than the open-risk cap of 150.
   */
  lemma ScaledEntryReportsTooLittle()
    ensures var r := Adding(4010.0, 0.6);
      var t := Evaluated(DEFAULTS, FRESH, r).target;
      EntryPath(DEFAULTS, FRESH, r) && t.actualStopRisk == 60.0
      && LossAtStop(ReadingBasis(DEFAULTS, FRESH, r), r.position, t.quantity) > 61.0
    ensures var r := Adding(4150.0, 1.0);
      var b, t := ReadingBasis(DEFAULTS, FRESH, r), Evaluated(DEFAULTS, FRESH, r).target;
      EntryPath(DEFAULTS, FRESH, r) && t.actualStopRisk == 60.0 && OpenRiskCap(DEFAULTS, b) == 150.0
      && LossAtStop(b, r.position, t.quantity) > 150.0
  {
    AddingIsSized(4010.0, 0.6);
    AddingIsSized(4150.0, 1.0);
  }

  lemma AddingIsSized(average: real, exposure: real)
    requires (average == 4010.0 && exposure == 0.6) || (average == 4150.0 && exposure == 1.0)
    ensures var r := Adding(average, exposure);
      var b, t := ReadingBasis(DEFAULTS, FRESH, r), Evaluated(DEFAULTS, FRESH, r).target;
      && EntryPath(DEFAULTS, FRESH, r) && t.actualStopRisk == 60.0 && OpenRiskCap(DEFAULTS, b) == 150.0
      && LossAtStop(b, r.position, t.quantity) > if average == 4010.0 then 61.0 else 150.0
  {
    hide Sizing, LossAtStop, BasisOf, ForeseenLoss, UnscaledNotional, Coherent, StopRisk, UnscaledQuantity, Rescaled,
         Scale;
    var r := Adding(average, exposure);
    var b := ReadingBasis(DEFAULTS, FRESH, r);
    BasisIsSound(DEFAULTS, FRESH, r.signal, r.volatility, r.fair, r.direct, r.account, 30000.0, 30000.0);
    AddingBasis(average, exposure);
    AddingUnscaled(b, exposure);
    AddingRisk(b, r.position);
    AddingLoss(b, r.position);
    SizingIsScaled(DEFAULTS, b, r.position);
    LossIsForeseen(DEFAULTS, b, r.position);
    SizingIsSound(DEFAULTS, b, r.position);
    assert PendingOpening([]) == 0.0;
  }

  lemma AddingBasis(average: real, exposure: real)
    requires 0.6 <= exposure <= 1.0
    ensures var b := ReadingBasis(DEFAULTS, FRESH, Adding(average, exposure));
      b == Basis(30000.0, 1.0, exposure, 0.0035, 60.0, exposure * 30000.0, 30000.0, exposure * 30000.0, 1.0,
                 4000.0 / 30000.0, 4000.0)
  {
  }

  predicate AddingFrom(b: Basis, p: Position) {
    && b.desired > 0.0 && b.price == 4000.0 && b.stopDistance == 0.0035 && b.riskBudget == 60.0 && b.equity == 30000.0
    && !IsReduction(b) && UnscaledNotional(DEFAULTS, b) == 120000.0 / 7.0
    && p.quantity == 1.0 && (p.averageEntry == 4010.0 || p.averageEntry == 4150.0)
  }

  lemma AddingUnscaled(b: Basis, exposure: real)
    requires 0.6 <= exposure <= 1.0 && !IsReduction(b) && b.desiredNotional == exposure * 30000.0 == b.liquidityCap
    requires b.riskBudget == 60.0 && b.stopDistance == 0.0035 && b.absoluteCap == 30000.0
    ensures UnscaledNotional(DEFAULTS, b) == 120000.0 / 7.0
  {
    var v := [b.desiredNotional, b.riskBudget / b.stopDistance, b.liquidityCap, b.absoluteCap];
    LeastNonNegativeIsLeast(v);
    hide LeastNonNegative, IsReduction;
    assert v[1] == 120000.0 / 7.0 && v[1] < v[0] && v[1] < v[2] && v[1] < v[3];
  }

  lemma AddingRisk(b: Basis, p: Position)
    requires AddingFrom(b, p)
    ensures StopRisk(b, p, UnscaledQuantity(DEFAULTS, b)) == p.averageEntry - 3940.0
    ensures UnscaledQuantity(DEFAULTS, b) == 30.0 / 7.0
  {
    var q := UnscaledQuantity(DEFAULTS, b);
    assert q == 30.0 / 7.0 by { hide UnscaledNotional, IsReduction; }
    hide StopRisk, LossAtStop, UnscaledNotional, IsReduction;
    StopRiskIsLoss(b, p, q);
    LossInParts(b, p, q);
  }

  lemma AddingLoss(b: Basis, p: Position)
    requires AddingFrom(b, p)
    ensures AllowedRisk(DEFAULTS, b, p) == 60.0
    ensures ForeseenLoss(DEFAULTS, b, p) > if p.averageEntry == 4010.0 then 61.0 else 150.0
  {
    AddingRisk(b, p);
    hide StopRisk, UnscaledNotional, IsReduction, UnscaledQuantity;
  }

  /** The defaults with a wide volatility stop, which validation does not bound. */
  const WIDE := DEFAULTS.(volatilityMultiplier := 100.0)

  function Volatile(exposure: real): Reading {
    Reading(
      1, Signal(exposure, false), 0.012, FairValue(true, 4000.0, 3999.0, 4001.0, 1.0, 0.0),
      Book(4000.0, 4001.0, 1.0, 1.0, 0.0, 1), Account(30000.0, 0.0, 0.0, 0.0, [], false, 1), NO_POSITION, false, false)
  }

  /** With it, at a volatility still safe to trade, a long that can lose 60 reports no stop risk at all. */
  lemma WideStopReportsNoRisk()
    ensures var t := Evaluated(WIDE, FRESH, Volatile(0.5)).target;
      WIDE.Valid() && EntryPath(WIDE, FRESH, Volatile(0.5)) && t.quantity > 0.0 && t.actualStopRisk == 0.0
      && TrueStopLoss(t.notional, t.stopDistance) == 60.0
  {
    hide BasisOf, Sizing, UnscaledNotional;
    var b := ReadingBasis(WIDE, FRESH, Volatile(0.5));
    VolatileBasis();
    VolatileUnscaled(b);
    VolatileSizing(b, Volatile(0.5).position);
    assert PendingOpening([]) == 0.0;
  }

  lemma VolatileBasis()
    ensures ReadingBasis(WIDE, FRESH, Volatile(0.5))
         == Basis(30000.0, 1.0, 0.5, 1.2, 60.0, 15000.0, 30000.0, 15000.0, 0.0, 0.0, 4000.0)
  {
    VolatileFigures();
    hide StopDistance, ThrottledExposure, RiskBudget, NotionalOf, AbsoluteCap, DepthCap, ExposureOf;
  }

  lemma VolatileFigures()
    ensures StopDistance(WIDE, 0.012) == 1.2 && ThrottledExposure(WIDE, 0.5, 1.0) == 0.5
    ensures RiskBudget(WIDE, 30000.0, 1.0) == 60.0 && NotionalOf(0.5, 30000.0) == 15000.0
    ensures AbsoluteCap(WIDE, 30000.0) == 30000.0 && DepthCap(WIDE, Volatile(0.5).direct) == 0.0
    ensures ExposureOf(0.0, 4000.0, 30000.0) == 0.0
  {
  }

  lemma VolatileUnscaled(b: Basis)
    requires b == Basis(30000.0, 1.0, 0.5, 1.2, 60.0, 15000.0, 30000.0, 15000.0, 0.0, 0.0, 4000.0)
    ensures UnscaledNotional(WIDE, b) == 50.0
  {
    var v := [b.desiredNotional, b.riskBudget / b.stopDistance, b.liquidityCap, b.absoluteCap];
    LeastNonNegativeIsLeast(v);
    hide LeastNonNegative;
    assert v[1] == 50.0 && v[1] < v[0] && v[1] < v[2] && v[1] < v[3];
  }

  lemma VolatileSizing(b: Basis, p: Position)
    requires b == Basis(30000.0, 1.0, 0.5, 1.2, 60.0, 15000.0, 30000.0, 15000.0, 0.0, 0.0, 4000.0)
    requires UnscaledNotional(WIDE, b) == 50.0 && p.quantity == 0.0
    ensures Sizing(WIDE, b, p) == Sized(50.0, 0.0125, 0.0)
  {
    hide UnscaledNotional;
  }
}
