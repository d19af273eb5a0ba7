/** Whole-run properties of the software stop: it never loosens, and it refines a rule about the price history. */
module TrackerFacts {
  import opened Numbers
  import opened Domain
  import opened Tracker
  import opened TrackerTerms

  datatype Notice =
    | ArmWith(fraction: real, at: Time)
    | Enter(context: EntryContext)
    | See(now: Time, account: Account, book: Book)

  ghost function Next(cfg: StopConfig, p: Position, e: Notice): Position {
    match e
    case ArmWith(f, at) => Armed(cfg, p, f, at)
    case Enter(c) => p.(entry := Some(c))
    case See(now, a, book) => Observed(cfg, p, now, a, book)
  }

  ghost function After(cfg: StopConfig, p: Position, es: seq<Notice>): Position {
    if es == [] then p else Next(cfg, After(cfg, p, es[..|es| - 1]), es[|es| - 1])
  }

  predicate Holds(p: Position, long: bool) {
    if long then p.quantity > QUANTITY_TOLERANCE else p.quantity < -QUANTITY_TOLERANCE
  }

  /** The position stays on one side throughout the run. */
  ghost predicate OneSided(cfg: StopConfig, p: Position, es: seq<Notice>, long: bool) {
    forall k :: 0 <= k <= |es| ==> Holds(After(cfg, p, es[..k]), long)
  }

  /** q is at least as protective a stop as p, and its initial fraction is no smaller. */
  predicate NoLooser(long: bool, p: Position, q: Position) {
    && q.stopPrice > 0.0
    && (if long then q.stopPrice >= p.stopPrice else q.stopPrice <= p.stopPrice)
    && q.initialStopFraction >= p.initialStopFraction
  }

  lemma ShortLevelsArePositive(cfg: StopConfig, average: real, fraction: real, best: real)
    requires average > 0.0 && fraction > 0.0 && best > 0.0
    ensures StopAt(false, average, fraction) > 0.0
    ensures cfg.distanceR > 0.0 && RiskDistance(average, fraction) > 0.0 ==>
              TrailingCandidate(cfg, false, RiskDistance(average, fraction), best) > 0.0
  {
    MulStrict(0.0, 1.0 + fraction, average);
    var rd := RiskDistance(average, fraction);
    if cfg.distanceR > 0.0 && rd > 0.0 {
      MulStrict(0.0, rd, cfg.distanceR);
    }
  }

  lemma TightenNeverLoosens(p: Position, long: bool)
    requires p.stopPrice > 0.0
    ensures NoLooser(long, p, TightenedInitial(p, long))
  {
    hide StopAt, RiskDistance, TrailingCandidate;
    if p.averageEntry > 0.0 && p.initialStopFraction > 0.0 {
      ShortLevelsArePositive(StopConfig(0.0, 0.0, 0.0, 0, 0), p.averageEntry, p.initialStopFraction, 1.0);
    }
  }

  lemma TrailNeverLoosens(cfg: StopConfig, p: Position, price: real)
    requires p.stopPrice > 0.0 && price > 0.0
    ensures NoLooser(p.quantity > 0.0, p, Trailed(cfg, p, price))
    ensures Trailed(cfg, p, price).quantity == p.quantity
  {
    hide StopAt, TrailingCandidate, RewardR;
    if p.averageEntry > 0.0 && RiskDistance(p.averageEntry, p.initialStopFraction) > 0.0 {
      ShortLevelsArePositive(cfg, p.averageEntry, p.initialStopFraction, Best(false, p.bestPrice, price));
    }
  }

  lemma ResizeNeverLoosens(cfg: StopConfig, p: Position, now: Time, q: real, a: Account, mid: real)
    requires p.stopPrice > 0.0 && q != 0.0
    ensures NoLooser(q > 0.0, p, Resized(cfg, p, now, q, a, mid))
    ensures Resized(cfg, p, now, q, a, mid).quantity == q
  {
    hide StopAt, Blend, TightenedInitial;
    if Grows(p, q) {
      var average := if q < 0.0 && a.marginBasePrice > 0.0 then a.marginBasePrice
                     else Blend(p.averageEntry, Abs(p.quantity), mid, Abs(q));
      var fraction := Max(p.initialStopFraction, StopFraction(cfg, p));
      TightenNeverLoosens(p.(averageEntry := average, initialStopFraction := fraction), q > 0.0);
    }
  }

  /** One input that leaves the position on its side cannot loosen the stop or shrink the initial fraction. */
  lemma StepNeverLoosens(cfg: StopConfig, p: Position, e: Notice, long: bool)
    requires p.stopPrice > 0.0 && Holds(p, long) && Holds(Next(cfg, p, e), long)
    ensures NoLooser(long, p, Next(cfg, p, e))
  {
    hide Trailed, Opened, Resized;
    if e.See? && e.book.Valid() && !Simultaneous(e.account) {
      var q, mid := CurrentQuantity(e.account), e.book.Mid();
      if Abs(q) > QUANTITY_TOLERANCE {
        SideIsKept(cfg, p, e, long);
        ResizeNeverLoosens(cfg, p, e.now, q, e.account, mid);
        TrailNeverLoosens(cfg, Resized(cfg, p, e.now, q, e.account, mid), mid);
      }
    }
  }

  /** While the side is kept an observation resizes the position; it never reopens it. */
  lemma SideIsKept(cfg: StopConfig, p: Position, e: Notice, long: bool)
    requires e.See? && e.book.Valid() && !Simultaneous(e.account)
    requires Abs(CurrentQuantity(e.account)) > QUANTITY_TOLERANCE
    requires Holds(p, long) && Holds(Next(cfg, p, e), long)
    ensures (CurrentQuantity(e.account) > 0.0) == long && !Reopens(p, CurrentQuantity(e.account))
  {
    hide RewardR, TrailingCandidate, RiskDistance, StopAt, Blend;
    var q, mid := CurrentQuantity(e.account), e.book.Mid();
    var carried := Carried(cfg, p, e.now, e.account, mid);
    assert Trailed(cfg, carried, mid).quantity == carried.quantity == q;
  }

  /** Ratchet: over any run on one side, the stop only tightens and the initial fraction only grows. */
  lemma {:induction false} StopRatchets(cfg: StopConfig, p: Position, es: seq<Notice>, long: bool)
    requires p.stopPrice > 0.0 && OneSided(cfg, p, es, long)
    ensures NoLooser(long, p, After(cfg, p, es))
  {
    assert es[..|es|] == es;
    assert Holds(After(cfg, p, es), long);
    if es != [] {
      var front := es[..|es| - 1];
      assert OneSided(cfg, p, front, long) by {
        forall k | 0 <= k <= |front| ensures Holds(After(cfg, p, front[..k]), long) {
          assert front[..k] == es[..k];
        }
      }
      assert es[..|front|] == front;
      StopRatchets(cfg, p, front, long);
      StepNeverLoosens(cfg, After(cfg, p, front), es[|front|], long);
    }
  }

  // ---- When the ratchet is lost -------------------------------------------------------------------

  /** A position opens with a live stop unless it is a long armed with a stop fraction of one or more. */
  lemma OpenedStopIsLiveIff(cfg: StopConfig, p: Position, now: Time, q: real, entry: real)
    requires entry > 0.0 && q != 0.0 && cfg.minimumFraction > 0.0
    ensures Opened(cfg, p, now, q, entry).stopPrice > 0.0
       <==> q < 0.0 || (p.pendingStopFraction < 1.0 && cfg.minimumFraction < 1.0)
  {
    var f := Max(StopFraction(cfg, p), cfg.minimumFraction);
    if q < 0.0 || f < 1.0 {
      MulStrict(0.0, if q < 0.0 then 1.0 + f else 1.0 - f, entry);
    } else {
      MulMonotone(1.0 - f, 0.0, entry);
    }
  }

  /** Seeing one unit more of a long at a mid of two. */
  function OneMore(p: Position): Notice {
    See(1, Account(0.0, p.quantity + 1.0, 0.0, 0.0, [], false, 1), Book(1.0, 3.0, 1.0, 1.0, 0.0, 1))
  }

  /** A stop fraction so wide that neither the initial stop nor the trail from this best price reaches a level. */
  function WideFraction(cfg: StopConfig, average: real, best: real, level: real): real
    requires average > 0.0
  {
    var initial := 2.0 - level / average;
    if cfg.distanceR > 0.0 then Max(initial, Max(1.0, 1.0 + (best - level) / average / cfg.distanceR)) else initial
  }

  lemma WideFractionIsWide(cfg: StopConfig, average: real, best: real, level: real, f: real)
    requires average > 0.0 && level <= 0.0 && f >= WideFraction(cfg, average, best, level)
    ensures f > 1.0 && StopAt(true, average, f) < level
    ensures cfg.distanceR > 0.0 ==> TrailingCandidate(cfg, true, RiskDistance(average, f), best) < level
  {
    var x := level / average;
    assert x * average == level;
    if x > 0.0 {
      MulStrict(0.0, x, average);
    }
    StopBelow(average, f, x, level);
    if cfg.distanceR > 0.0 {
      var y := (best - level) / average;
      assert y * average == best - level;
      var z := y / cfg.distanceR;
      assert z * cfg.distanceR == y;
      TrailBelow(average, f, cfg.distanceR, z, y, best, level);
    }
  }

  lemma StopBelow(average: real, f: real, x: real, level: real)
    requires average > 0.0 && f >= 2.0 - x && x * average == level
    ensures StopAt(true, average, f) < level
  {
    hide Times, StopAt;
    StopIsProduct(average, f, x, level);
    TimesMonotone(1.0 - f, x - 1.0, average);
  }

  lemma StopIsProduct(average: real, f: real, x: real, level: real)
    requires x * average == level
    ensures StopAt(true, average, f) == Times(1.0 - f, average)
    ensures Times(x - 1.0, average) == level - average
  {
    Distribute(x, -1.0, average);
  }

  lemma TrailBelow(average: real, f: real, distance: real, z: real, y: real, best: real, level: real)
    requires average > 0.0 && distance > 0.0 && f >= 1.0 + z && z * distance == y && y * average == best - level
    ensures best - average * f * distance < level
  {
    var u := f * distance;
    MulStrict(z, f, distance);
    assert u > y;
    MulStrict(y, u, average);
    assert u * average == average * f * distance;
  }

  /** What a wide arm and one more unit make of a long whose stop is not live. */
  lemma WideArmLoosens(cfg: StopConfig, p: Position, f: real)
    requires Holds(p, true) && p.averageEntry > 0.0 && p.stopPrice <= 0.0
    requires var average := Blend(p.averageEntry, p.quantity, 2.0, p.quantity + 1.0);
      average > 0.0 && f >= WideFraction(cfg, average, Best(true, p.bestPrice, 2.0), p.stopPrice)
    ensures var n := Next(cfg, Next(cfg, p, ArmWith(f, 1)), OneMore(p));
      Holds(n, true) && n.stopPrice < p.stopPrice
  {
    hide Blend, StopAt, TrailingCandidate, RiskDistance, RewardR, WideFraction;
    var average, best := Blend(p.averageEntry, p.quantity, 2.0, p.quantity + 1.0), Best(true, p.bestPrice, 2.0);
    WideFractionIsWide(cfg, average, best, p.stopPrice, f);
    var armed := Armed(cfg, p, f, 1);
    var wide := Max(p.initialStopFraction, StopFraction(cfg, armed));
    assert wide >= f;
    WideFractionIsWide(cfg, average, best, p.stopPrice, wide);
    GrownLong(cfg, armed, wide, average);
    var r := Resized(cfg, armed, 1, p.quantity + 1.0, OneMore(p).account, 2.0);
    LongTrail(cfg, r, average, wide, best, p.stopPrice);
  }

  lemma GrownLong(cfg: StopConfig, p: Position, fraction: real, average: real)
    requires Holds(p, true) && p.stopPrice <= 0.0 && average > 0.0 && fraction > 1.0
    requires average == Blend(p.averageEntry, p.quantity, 2.0, p.quantity + 1.0)
    requires fraction == Max(p.initialStopFraction, StopFraction(cfg, p))
    ensures var r := Resized(cfg, p, 1, p.quantity + 1.0, OneMore(p).account, 2.0);
      && r.quantity == p.quantity + 1.0 && r.averageEntry == average && r.initialStopFraction == fraction
      && r.bestPrice == p.bestPrice && r.stopPrice == StopAt(true, average, fraction)
    ensures Observed(cfg, p, 1, OneMore(p).account, OneMore(p).book)
      == Trailed(cfg, Resized(cfg, p, 1, p.quantity + 1.0, OneMore(p).account, 2.0), 2.0)
         .(stopOrderId := FirstInGroup([], cfg.stopGroupId))
  {
    hide Blend, StopAt, Trailed;
    assert OneMore(p).book.Mid() == 2.0 && CurrentQuantity(OneMore(p).account) == p.quantity + 1.0;
    assert Grows(p, p.quantity + 1.0) && !Reopens(p, p.quantity + 1.0);
  }

  lemma LongTrail(cfg: StopConfig, r: Position, average: real, fraction: real, best: real, level: real)
    requires r.quantity > QUANTITY_TOLERANCE && r.averageEntry == average > 0.0 && r.initialStopFraction == fraction
    requires best == Best(true, r.bestPrice, 2.0) && r.stopPrice < level
    requires cfg.distanceR > 0.0 ==> TrailingCandidate(cfg, true, RiskDistance(average, fraction), best) < level
    ensures Trailed(cfg, r, 2.0).stopPrice < level && Trailed(cfg, r, 2.0).quantity == r.quantity
  {
    hide TrailingCandidate, RiskDistance, RewardR;
  }

  ghost predicate NeverFalls(cfg: StopConfig, p: Position) {
    forall es :: OneSided(cfg, p, es, true) ==> After(cfg, p, es).stopPrice >= p.stopPrice
  }

  /** The stop of a held long can never fall, whatever follows on its side, if and only if it is live. */
  lemma LongRatchetsIff(cfg: StopConfig, p: Position)
    requires Holds(p, true) && p.averageEntry > 0.0
    ensures NeverFalls(cfg, p) <==> p.stopPrice > 0.0
  {
    hide Next, WideFraction, Blend;
    if p.stopPrice > 0.0 {
      forall es | OneSided(cfg, p, es, true) ensures After(cfg, p, es).stopPrice >= p.stopPrice {
        StopRatchets(cfg, p, es, true);
      }
    } else {
      var average := Blend(p.averageEntry, p.quantity, 2.0, p.quantity + 1.0);
      BlendIsPositive(p.averageEntry, p.quantity);
      var f := WideFraction(cfg, average, Best(true, p.bestPrice, 2.0), p.stopPrice);
      WideArmLoosens(cfg, p, f);
      var a, b := ArmWith(f, 1), OneMore(p);
      TwoNotices(cfg, p, a, b);
      ArmingKeepsHolding(cfg, p, f);
      assert OneSided(cfg, p, [a, b], true);
    }
  }

  /** A long armed with one and a half times its entry has its stop below zero, and doubling up lowers it further. */
  lemma WideStopFalls()
    ensures var cfg := StopConfig(0.0035, 1.5, 1.0, 0, 883302);
      var p := Opened(cfg, NO_POSITION.(pendingStopFraction := 1.5), 1, 1.0, 200.0);
      var more := See(2, Account(0.0, 2.0, 0.0, 0.0, [], false, 2), Book(399.0, 401.0, 1.0, 1.0, 0.0, 2));
      p.stopPrice == -100.0 && Next(cfg, p, more).stopPrice == -150.0 && Next(cfg, p, more).quantity == 2.0
  {
    var cfg := StopConfig(0.0035, 1.5, 1.0, 0, 883302);
    var p := Opened(cfg, NO_POSITION.(pendingStopFraction := 1.5), 1, 1.0, 200.0);
    var a, b := Account(0.0, 2.0, 0.0, 0.0, [], false, 2), Book(399.0, 401.0, 1.0, 1.0, 0.0, 2);
    assert b.Mid() == 400.0 && Blend(200.0, 1.0, 400.0, 2.0) == 300.0;
    var r := Resized(cfg, p, 2, 2.0, a, 400.0);
    assert r.averageEntry == 300.0 && r.initialStopFraction == 1.5 && r.stopPrice == -150.0 && r.bestPrice == 200.0;
    assert RewardR(true, 300.0, 450.0, 400.0) < 1.5;
    assert Trailed(cfg, r, 400.0).stopPrice == -150.0;
  }

  lemma BlendIsPositive(average: real, before: real)
    requires average > 0.0 && before > 0.0
    ensures Blend(average, before, 2.0, before + 1.0) > 0.0
  {
    MulStrict(0.0, average, before);
    var cost, q := average * before + 2.0 * (before + 1.0 - before), before + 1.0;
    var x := cost / q;
    assert x * q == cost;
    if x <= 0.0 {
      MulMonotone(x, 0.0, q);
    }
  }

  lemma ArmingKeepsHolding(cfg: StopConfig, p: Position, f: real)
    ensures Next(cfg, p, ArmWith(f, 1)).quantity == p.quantity
  {
  }

  lemma TwoNotices(cfg: StopConfig, p: Position, a: Notice, b: Notice)
    ensures After(cfg, p, []) == p && After(cfg, p, [a]) == Next(cfg, p, a)
    ensures After(cfg, p, [a, b]) == Next(cfg, Next(cfg, p, a), b)
    ensures [a, b][..0] == [] && [a, b][..1] == [a] && [a, b][..2] == [a, b]
  {
    hide Next;
    assert [a][..0] == [] && [a, b][..1] == [a] && [a, b][..0] == [] && [a, b][..2] == [a, b];
    assert After(cfg, p, [a]) == Next(cfg, p, a);
  }

  predicate TouchesStop(p: Position, book: Book) {
    if p.quantity > 0.0 then book.bid <= p.stopPrice else book.ask >= p.stopPrice
  }

  predicate NoBetter(long: bool, was: Book, is_: Book) {
    if long then is_.bid <= was.bid else is_.ask >= was.ask
  }

  /**
   * Persistence of the software stop: once a book has touched the stop, every later valid single-venue
   * observation on the same side at an equal or worse price demands the stop exit again.
   */
  lemma TriggeredStopStaysTriggered(cfg: StopConfig, p: Position, es: seq<Notice>, last: Notice, was: Book, long: bool)
    requires p.stopPrice > 0.0 && TouchesStop(p, was)
    requires OneSided(cfg, p, es + [last], long)
    requires last.See? && last.book.Valid() && !Simultaneous(last.account)
    requires Abs(CurrentQuantity(last.account)) > QUANTITY_TOLERANCE
    requires NoBetter(long, was, last.book)
    ensures Announced(cfg, After(cfg, p, es), last.now, last.account, last.book).exit == StopHit
  {
    hide StopAt, Blend, Trailed, Opened, Resized, TightenedInitial;
    var all := es + [last];
    StopRatchets(cfg, p, all, long);
    assert all[..0] == [] && all[..|all|] == all && all[..|es|] == es;
    assert Holds(After(cfg, p, []), long) && Holds(After(cfg, p, es), long) && Holds(After(cfg, p, all), long);
    SideIsKept(cfg, After(cfg, p, es), last, long);
    var end := After(cfg, p, all);
    assert end == Next(cfg, After(cfg, p, es), last);
  }

  /** The observation leaves a position with a live stop to watch. */
  ghost predicate Watches(cfg: StopConfig, p: Position, e: Notice) {
    e.See? && e.book.Valid() && !Simultaneous(e.account)
    && Abs(CurrentQuantity(e.account)) > QUANTITY_TOLERANCE && Next(cfg, p, e).stopPrice > 0.0
  }

  /** The holding has lasted as long as is allowed, if a limit is set. */
  predicate HeldTooLong(cfg: StopConfig, p: Position, now: Time) {
    0 < cfg.maxHolding <= now - p.openedAt && p.openedAt != 0
  }

  /** A stop exit is demanded exactly when the book touches the live stop, a time exit when only the time is up. */
  lemma ExitsAreExact(cfg: StopConfig, p: Position, e: Notice)
    requires e.See?
    ensures var n, exit := Next(cfg, p, e), Announced(cfg, p, e.now, e.account, e.book).exit;
      && (exit == StopHit <==> Watches(cfg, p, e) && TouchesStop(n, e.book))
      && (exit == HoldingTime <==> Watches(cfg, p, e) && !TouchesStop(n, e.book) && HeldTooLong(cfg, n, e.now))
      && (exit == SimultaneousHoldings <==> e.book.Valid() && Simultaneous(e.account))
  {
    hide RewardR, TrailingCandidate, RiskDistance, StopAt, Blend, Trailed, Opened, Resized, Book.Mid;
    var mid := e.book.Mid();
    var carried := Carried(cfg, p, e.now, e.account, mid);
    CarriedQuantity(cfg, p, e.now, e.account, mid);
    TrailingKeepsQuantity(cfg, carried, mid);
  }

  lemma CarriedQuantity(cfg: StopConfig, p: Position, now: Time, a: Account, mid: real)
    ensures Carried(cfg, p, now, a, mid).quantity == CurrentQuantity(a)
  {
    hide StopAt, Blend;
  }

  lemma TrailingKeepsQuantity(cfg: StopConfig, p: Position, price: real)
    ensures Trailed(cfg, p, price).quantity == p.quantity
  {
    hide RewardR, TrailingCandidate, RiskDistance;
  }

  /** Without an exchange base price, growing keeps the cost: what was held at its average plus what came at the mid. */
  lemma GrowthKeepsCost(cfg: StopConfig, p: Position, now: Time, q: real, a: Account, mid: real)
    requires Grows(p, q) && !(q < 0.0 && a.marginBasePrice > 0.0)
    ensures Times(Resized(cfg, p, now, q, a, mid).averageEntry, Abs(q))
         == Times(p.averageEntry, Abs(p.quantity)) + Times(mid, Abs(q) - Abs(p.quantity))
  {
    hide StopAt, Tighter;
    var cost := p.averageEntry * Abs(p.quantity) + mid * (Abs(q) - Abs(p.quantity));
    QuotientTimes(cost, Abs(q));
  }

  // ---- The history specification ----------------------------------------------------------------

  /** The most favourable of a starting price and a sequence of mids. */
  function Extreme(long: bool, start: real, mids: seq<real>): real {
    if mids == [] then start
    else
      var e, m := Extreme(long, start, mids[..|mids| - 1]), mids[|mids| - 1];
      if long then Max(e, m) else Min(e, m)
  }

  /** The stop as a function of the entry, the initial stop and the extreme alone. */
  function TrailRule(cfg: StopConfig, long: bool, average: real, fraction: real, initial: real, extreme: real): real {
    var rd := RiskDistance(average, fraction);
    if !Trails(cfg, rd) || RewardR(long, average, rd, extreme) < cfg.activationR then initial
    else
      var c := TrailingCandidate(cfg, long, rd, extreme);
      if long then Max(initial, c) else Min(initial, c)
  }

  /** The notice is an observation the tracker acts on: a valid book and one venue held. */
  predicate Usable(e: Notice) {
    e.See? && e.book.Valid() && !Simultaneous(e.account)
  }

  /** The mids of the usable observations. */
  function Mids(es: seq<Notice>): seq<real> {
    if es == [] then []
    else
      var front, last := Mids(es[..|es| - 1]), es[|es| - 1];
      if Usable(last) then front + [last.book.Mid()] else front
  }

  /** A usable observation of a position on this side that is no larger than q. */
  predicate Fits(q: real, e: Notice, long: bool) {
    && Usable(e)
    && var seen := CurrentQuantity(e.account);
       && (if long then seen > QUANTITY_TOLERANCE else seen < -QUANTITY_TOLERANCE)
       && Abs(seen) <= Abs(q) + QUANTITY_TOLERANCE
  }

  /** The quantity last seen. */
  function SizeAfter(q: real, es: seq<Notice>): real {
    if es == [] then q
    else
      var last := es[|es| - 1];
      if Usable(last) then CurrentQuantity(last.account) else SizeAfter(q, es[..|es| - 1])
  }

  /** Each usable observation is no larger than the one before it. */
  predicate NeverGrows(q: real, es: seq<Notice>, long: bool) {
    es != [] ==>
      var front, last := es[..|es| - 1], es[|es| - 1];
      NeverGrows(q, front, long) && (Usable(last) ==> Fits(SizeAfter(q, front), last, long))
  }

  lemma {:induction false} SightsFit(q: real, es: seq<Notice>, long: bool)
    requires NeverGrows(q, es, long)
    ensures es != [] && Usable(es[0]) ==> Fits(q, es[0], long)
    ensures forall k :: 0 <= k < |Mids(es)| ==> Mids(es)[k] > 0.0
  {
    if es != [] {
      var front := es[..|es| - 1];
      SightsFit(q, front, long);
      assert front != [] ==> front[0] == es[0];
      assert front == [] ==> SizeAfter(q, front) == q;
    }
  }

  /** The most favourable price only improves, so applying the rule at each step equals applying it at the end. */
  lemma TrailRuleAbsorbs(cfg: StopConfig, long: bool, average: real, fraction: real, initial: real, e: real, m: real)
    requires if long then e <= m else m <= e
    ensures TrailRule(cfg, long, average, fraction, initial, m)
         == TrailRule(cfg, long, average, fraction, TrailRule(cfg, long, average, fraction, initial, e), m)
  {
    hide RiskDistance;
    var rd := RiskDistance(average, fraction);
    if Trails(cfg, rd) {
      DivMonotone(if long then e - average else average - e, if long then m - average else average - m, rd);
    }
  }

  lemma {:induction false} ExtremeIsPositive(long: bool, start: real, mids: seq<real>)
    requires start > 0.0 && forall k :: 0 <= k < |mids| ==> mids[k] > 0.0
    ensures Extreme(long, start, mids) > 0.0
  {
    if mids != [] {
      ExtremeIsPositive(long, start, mids[..|mids| - 1]);
    }
  }

  /** The tracker state after a run of notices, as the history rule predicts it from the opened position p. */
  ghost predicate Predicted(cfg: StopConfig, p: Position, es: seq<Notice>, long: bool, s: Position) {
    var e := Extreme(long, p.bestPrice, Mids(es));
    && s.averageEntry == p.averageEntry && s.initialStopFraction == p.initialStopFraction
    && s.quantity == SizeAfter(p.quantity, es)
    && s.bestPrice == e
    && s.stopPrice == TrailRule(cfg, long, p.averageEntry, p.initialStopFraction, p.stopPrice, e)
  }

  predicate Sound(p: Position, long: bool) {
    Holds(p, long) && p.averageEntry > 0.0 && p.initialStopFraction > 0.0 && p.bestPrice > 0.0
    && (!long ==> p.stopPrice > 0.0)
  }

  /** Trailing by one mid is the history rule applied to the new extreme. */
  lemma TrailIsHistory(cfg: StopConfig, p: Position, price: real, long: bool)
    requires Sound(p, long)
    ensures var best := if long then Max(p.bestPrice, price) else Min(p.bestPrice, price);
      Trailed(cfg, p, price) ==
        p.(bestPrice := best,
           stopPrice := TrailRule(cfg, long, p.averageEntry, p.initialStopFraction, p.stopPrice, best))
  {
    hide RewardR, TrailingCandidate, RiskDistance;
  }

  lemma TrailRulePositive(cfg: StopConfig, average: real, fraction: real, initial: real, e: real)
    requires average > 0.0 && fraction > 0.0 && initial > 0.0 && e > 0.0
    ensures TrailRule(cfg, false, average, fraction, initial, e) > 0.0
  {
    hide RewardR, TrailingCandidate, RiskDistance;
    ShortLevelsArePositive(cfg, average, fraction, e);
  }

  /** One observation that does not enlarge the position applies the history rule to the new extreme. */
  lemma SightIsHistory(cfg: StopConfig, p: Position, e: Notice, long: bool)
    requires Sound(p, long) && Fits(p.quantity, e, long)
    ensures var best := if long then Max(p.bestPrice, e.book.Mid()) else Min(p.bestPrice, e.book.Mid());
      var n := Next(cfg, p, e);
      && n.averageEntry == p.averageEntry && n.initialStopFraction == p.initialStopFraction
      && n.quantity == CurrentQuantity(e.account) && n.bestPrice == best
      && n.stopPrice == TrailRule(cfg, long, p.averageEntry, p.initialStopFraction, p.stopPrice, best)
  {
    hide TrailRule, Trailed, Opened, StopAt, Blend;
    var q := CurrentQuantity(e.account);
    assert !Reopens(p, q) && !Grows(p, q);
    TrailIsHistory(cfg, p.(quantity := q, updatedAt := e.now), e.book.Mid(), long);
  }

  /** Arms, contexts and unusable observations leave the position, its best price and its stop alone. */
  lemma UnusableChangesNothing(cfg: StopConfig, p: Position, e: Notice)
    requires !Usable(e)
    ensures var n := Next(cfg, p, e);
      && n.averageEntry == p.averageEntry && n.initialStopFraction == p.initialStopFraction && n.quantity == p.quantity
      && n.bestPrice == p.bestPrice && n.stopPrice == p.stopPrice
  {
  }

  lemma {:induction false} NoticesFollowHistory(cfg: StopConfig, p: Position, es: seq<Notice>, long: bool)
    requires Sound(p, long) && NeverGrows(p.quantity, es, long)
    requires TrailRule(cfg, long, p.averageEntry, p.initialStopFraction, p.stopPrice, p.bestPrice) == p.stopPrice
    ensures Predicted(cfg, p, es, long, After(cfg, p, es)) && Holds(After(cfg, p, es), long)
  {
    hide TrailRule, Next, Book.Mid, CurrentQuantity, Simultaneous;
    if es != [] {
      var front, last := es[..|es| - 1], es[|es| - 1];
      NoticesFollowHistory(cfg, p, front, long);
      var was := After(cfg, p, front);
      if Usable(last) {
        var e := Extreme(long, p.bestPrice, Mids(front));
        SightsFit(p.quantity, front, long);
        ExtremeIsPositive(long, p.bestPrice, Mids(front));
        if !long {
          TrailRulePositive(cfg, p.averageEntry, p.initialStopFraction, p.stopPrice, e);
        }
        SightIsHistory(cfg, was, last, long);
        var mid := last.book.Mid();
        assert Mids(es)[..|Mids(es)| - 1] == Mids(front);
        TrailRuleAbsorbs(cfg, long, p.averageEntry, p.initialStopFraction, p.stopPrice, e,
                           if long then Max(e, mid) else Min(e, mid));
      } else {
        UnusableChangesNothing(cfg, was, last);
      }
    }
  }

  /** Opening a position and then observing the same again is one and the same step. */
  lemma OpeningIsItsOwnFirstSight(cfg: StopConfig, p: Position, e: Notice)
    requires Usable(e)
    requires Abs(CurrentQuantity(e.account)) > QUANTITY_TOLERANCE && Reopens(p, CurrentQuantity(e.account))
    ensures var q := CurrentQuantity(e.account);
      Next(cfg, p, e) == Next(cfg, Opened(cfg, p, e.now, q, EntryPrice(e.account, q, e.book.Mid())), e)
  {
    hide Trailed, StopAt, Blend;
  }

  lemma {:induction false} AfterFrom(cfg: StopConfig, p: Position, p': Position, es: seq<Notice>)
    requires es != [] && Next(cfg, p, es[0]) == Next(cfg, p', es[0])
    ensures After(cfg, p, es) == After(cfg, p', es)
  {
    hide Next;
    if |es| > 1 {
      AfterFrom(cfg, p, p', es[..|es| - 1]);
    } else {
      assert es[..0] == [];
    }
  }

  /**
   * The incremental trailing stop refines its history rule: from the observation that opens a position, through any
   * arms, contexts, unusable observations and observations that do not enlarge it, the best price is the extreme of
   * the entry and all mids, and the stop is the tighter of the initial stop and, once that extreme reaches the
   * activation R, the extreme less the trail.
   */
  lemma TrailingRefinesHistory(cfg: StopConfig, p: Position, es: seq<Notice>, long: bool)
    requires cfg.minimumFraction > 0.0 && es != [] && Usable(es[0])
    requires Reopens(p, CurrentQuantity(es[0].account))
    requires NeverGrows(CurrentQuantity(es[0].account), es, long)
    ensures var entry, fraction := CostOf(es[0].account, es[0].book), FractionInForce(cfg, p);
      var extreme, end := Extreme(long, entry, Mids(es)), After(cfg, p, es);
      && end.averageEntry == entry && end.initialStopFraction == fraction && end.bestPrice == extreme
      && end.stopPrice == HistoryStop(cfg, long, entry, fraction, extreme)
  {
    FollowsTheRule(cfg, p, es, long);
    hide TrailRule, StopAt, HistoryStop, After, Extreme, Mids, NeverGrows;
    var entry, fraction := CostOf(es[0].account, es[0].book), FractionInForce(cfg, p);
    InitialStopIs(long, entry, fraction);
    RuleIsHistory(cfg, long, entry, fraction, Extreme(long, entry, Mids(es)));
  }

  lemma RuleIsHistory(cfg: StopConfig, long: bool, entry: real, fraction: real, extreme: real)
    ensures TrailRule(cfg, long, entry, fraction, StopAt(long, entry, fraction), extreme)
         == HistoryStop(cfg, long, entry, fraction, extreme)
  {
    InitialStopIs(long, entry, fraction);
    if Times(entry, fraction) > 0.0 {
      ActivationIsDistance(cfg, long, entry, Times(entry, fraction), extreme);
    }
    hide RewardR, StopAt;
  }

  /** The same in the tracker's own steps. */
  lemma FollowsTheRule(cfg: StopConfig, p: Position, es: seq<Notice>, long: bool)
    requires cfg.minimumFraction > 0.0 && es != [] && Usable(es[0])
    requires Reopens(p, CurrentQuantity(es[0].account))
    requires NeverGrows(CurrentQuantity(es[0].account), es, long)
    ensures var q := CurrentQuantity(es[0].account);
      var entry := EntryPrice(es[0].account, q, es[0].book.Mid());
      var fraction := Max(StopFraction(cfg, p), cfg.minimumFraction);
      var extreme := Extreme(long, entry, Mids(es));
      var end := After(cfg, p, es);
      && end.averageEntry == entry && end.initialStopFraction == fraction && end.bestPrice == extreme
      && end.stopPrice == TrailRule(cfg, long, entry, fraction, StopAt(long, entry, fraction), extreme)
  {
    hide RewardR, TrailingCandidate, Trailed;
    var q := CurrentQuantity(es[0].account);
    var entry := EntryPrice(es[0].account, q, es[0].book.Mid());
    var p0 := Opened(cfg, p, es[0].now, q, entry);
    SightsFit(q, es, long);
    ShortLevelsArePositive(cfg, entry, p0.initialStopFraction, entry);
    OpeningIsItsOwnFirstSight(cfg, p, es[0]);
    AfterFrom(cfg, p, p0, es);
    EntryHasNoReward(cfg, long, entry, p0.initialStopFraction, p0.stopPrice);
    NoticesFollowHistory(cfg, p0, es, long);
  }

  /** At the entry price itself the excursion is zero, so a positive activation leaves the initial stop alone. */
  lemma EntryHasNoReward(cfg: StopConfig, long: bool, entry: real, fraction: real, initial: real)
    ensures TrailRule(cfg, long, entry, fraction, initial, entry) == initial
  {
    hide RiskDistance;
    if Trails(cfg, RiskDistance(entry, fraction)) {
      assert 0.0 / RiskDistance(entry, fraction) == 0.0;
    }
  }
}
