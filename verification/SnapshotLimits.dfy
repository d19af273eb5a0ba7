/**
 * Where the order protocol depends on its snapshots: a refresh torn by a fill and a submission whose response is lost
 * both lead to a second entry, and exactly when the snapshot misses what is held or what works.
 */
module SnapshotLimits {
  import opened Numbers
  import opened Sequences
  import opened Domain
  import opened Planner
  import opened PlannerFacts
  import opened Protocol

  /** Every refresh is calm and no response is lost. */
  predicate CalmRun(cfg: Config, w: World, es: seq<Event>) {
    forall k :: 0 <= k < |es| ==>
      match es[k] case Read(r) => Calm(Run(cfg, w, es[..k]), r) case Act(t) => t.outcome != Lost case Market(_) => true
  }

  /** Such runs are careful. */
  lemma {:induction false} CalmRunsAreCareful(cfg: Config, w: World, es: seq<Event>)
    requires CalmRun(cfg, w, es)
    ensures Careful(cfg, w, es) && Trusted(cfg, w, es)
  {
    hide Calm, Run;
    if es != [] {
      var front := es[..|es| - 1];
      forall k | 0 <= k < |front| ensures front[k] == es[k] && front[..k] == es[..k] {
      }
      CalmRunsAreCareful(cfg, w, front);
      assert es[..|front|] == front;
    }
  }

  // ---- A decision that opens as much as wanted ------------------------------------------------------

  /** Enough whole steps to exceed a level. */
  function StepsAbove(cfg: Config, level: real): real
    requires cfg.quantityStep > 0.0
  {
    Steps(Floor(level / cfg.quantityStep) + 1, cfg.quantityStep)
  }

  lemma StepsExceed(cfg: Config, level: real)
    requires cfg.quantityStep > 0.0
    ensures StepsAbove(cfg, level) > level
    ensures RoundDown(StepsAbove(cfg, level) - SLACK, cfg.quantityStep) == StepsAbove(cfg, level)
  {
    var k, step := Floor(level / cfg.quantityStep), cfg.quantityStep;
    FloorTimesStep(level, step);
    Distribute(k as real, 1.0, step);
    assert (k + 1) as real == k as real + 1.0;
    RoundsToItself(k + 1, step);
  }

  lemma RoundsToItself(k: int, step: real)
    requires step > 0.0
    ensures RoundDown(Steps(k, step) - SLACK, step) == Steps(k, step)
  {
    var x := Steps(k, step);
    assert x - SLACK + SLACK == x;
    StepsOver(k, step, x);
  }

  lemma StepsOver(k: int, step: real, x: real)
    requires step > 0.0 && x == k as real * step
    ensures x / step == k as real && Floor(x / step) == k
  {
  }

  /** The target just short of some whole steps beyond a holding, on the side asked for. */
  function AmpleTarget(long: bool, held: real, q: real): real {
    if long then held + q - SLACK else held - q + SLACK
  }

  function AmpleTick(cfg: Config, long: bool, held: real, q: real): TickInput
    requires q > SLACK
  {
    TickInput(1, NO_TARGET.(quantity := AmpleTarget(long, held, q)), NO_POSITION, PermissiveBook(cfg, q - SLACK), 0.0,
              false, false, Placed, 0, 0)
  }

  /** The snapshot lets a decision open a side: nothing works, the other venue is flat, and no stop is in the way. */
  predicate Opens(cfg: Config, a: Account, long: bool) {
    && Working(cfg, a.openOrders) == []
    && (if long then a.margin >= -cfg.tolerance else a.spot <= cfg.tolerance)
    && (Filter(a.openOrders, InGroup(cfg.stopGroupId)) == [] || (if long then a.Net() >= 1e-9 else a.Net() <= -1e-9))
  }

  function HeldIn(a: Account, long: bool): real {
    if long then a.spot else a.margin
  }

  lemma AmpleOrder(cfg: Config, a: Account, long: bool, level: real)
    requires cfg.Scaled() && a.spot >= 0.0 && a.margin <= 0.0 && Opens(cfg, a, long) && level >= cfg.minQuantity + 1.0
    ensures var q := StepsAbove(cfg, level);
      var t := AmpleTick(cfg, long, HeldIn(a, long), q);
      q > level && Chosen(cfg, a, t).Submit?
      && var i := Chosen(cfg, a, t).intent;
         i.gid == cfg.groupId && i.amount == OnSide(q, long) && i.venue == (if long then Spot else Margin)
         && IsOpening(i)
  {
    hide RoundDown, RoundPrice, ChildPrice, Caps, Capped, PermissiveBook, Protective, Filter, Sorted, Ids, NextMove,
         NeedsStopCancellation, ShouldProtectDuringBuild, Steps;
    StepsExceed(cfg, level);
    var q := StepsAbove(cfg, level);
    var t := AmpleTick(cfg, long, HeldIn(a, long), q);
    var inp := PlanInput(a, t);
    PermissiveCaps(cfg, inp, q - SLACK);
    AmpleTests(cfg, a, long, q);
  }

  lemma AmpleTests(cfg: Config, a: Account, long: bool, q: real)
    requires cfg.Scaled() && a.spot >= 0.0 && a.margin <= 0.0 && q > cfg.minQuantity + 1.0
    requires if long then a.margin >= -cfg.tolerance else a.spot <= cfg.tolerance
    ensures var inp := PlanInput(a, AmpleTick(cfg, long, HeldIn(a, long), q));
      && NextMove(cfg, inp.target.quantity, a)
         == (if long then Move(Spot, Buy, q - SLACK) else Move(Margin, Sell, q - SLACK))
      && (NeedsStopCancellation(inp.target.quantity, a) <==> !(if long then a.Net() >= 1e-9 else a.Net() <= -1e-9))
      && !ShouldProtectDuringBuild(inp)
  {
    hide PermissiveBook;
  }

  // ---- What a snapshot may miss -------------------------------------------------------------------

  /** The level from which an ample order reaches past everything pursued so far. */
  function Beyond(cfg: Config, w: World, held: real, long: bool): real {
    Max(cfg.minQuantity + 1.0, if long then w.high - held + SLACK else held - w.low + SLACK)
  }

  lemma AmpleOrderAddsUp(cfg: Config, w: World, a: Account, long: bool)
    requires cfg.Scaled() && w.cache == Some(a) && a.spot >= 0.0 && a.margin <= 0.0 && Opens(cfg, a, long)
    ensures var q := StepsAbove(cfg, Beyond(cfg, w, HeldIn(a, long), long));
      q > SLACK
      && var t := AmpleTick(cfg, long, HeldIn(a, long), q);
         var v := ActOnce(cfg, w, t);
         && (exists o :: v.orders == w.orders + [o] && o.gid == cfg.groupId
                         && Pending([o], if long then Spot else Margin) == q)
         && (if long then v.high == t.target.quantity else v.low == t.target.quantity)
         && v.spot == w.spot && v.margin == w.margin
  {
    hide Chosen, PermissiveBook, RoundDown, StepsAbove;
    var q := StepsAbove(cfg, Beyond(cfg, w, HeldIn(a, long), long));
    AmpleOrder(cfg, a, long, Beyond(cfg, w, HeldIn(a, long), long));
    var t := AmpleTick(cfg, long, HeldIn(a, long), q);
    var o := Resting(Chosen(cfg, a, t).intent, 0, 1);
    Singleton(o, if long then Spot else Margin, cfg.groupId);
    assert ActOnce(cfg, w, t).orders == w.orders + [o];
  }

  /** Opening this side of the snapshot would overshoot, or meet a holding in the other venue. */
  predicate Misses(cfg: Config, w: World, a: Account, long: bool) {
    if long then w.spot > a.spot || w.margin < -cfg.tolerance else w.margin < a.margin || w.spot > cfg.tolerance
  }

  /**
   * With nothing working, some decision on the snapshot breaks safety if and only if it lets a side be opened of which
   * it misses part of what is held, no matter how little, or a holding beyond the tolerance in the other venue.
   */
  lemma MissedHoldingBreaksIff(cfg: Config, w: World, a: Account)
    requires cfg.Scaled() && Safe(cfg, w) && BotOrders(cfg, w.orders) && Working(cfg, w.orders) == []
    requires w.cache == Some(a) && a.spot >= 0.0 && a.margin <= 0.0
    ensures (exists t :: !Safe(cfg, ActOnce(cfg, w, t)))
       <==> exists long :: Opens(cfg, a, long) && Misses(cfg, w, a, long)
  {
    hide ActOnce, AmpleTick, StepsAbove, AmpleTarget, Safe, BotOrders, Filter, Opens, Misses;
    if long :| Opens(cfg, a, long) && Misses(cfg, w, a, long) {
      var q := StepsAbove(cfg, Beyond(cfg, w, HeldIn(a, long), long));
      Overshoots(cfg, w, a, long);
      assert !Safe(cfg, ActOnce(cfg, w, AmpleTick(cfg, long, HeldIn(a, long), q)));
    }
    if t :| !Safe(cfg, ActOnce(cfg, w, t)) {
      UnsafeActOpens(cfg, w, a, t);
    }
  }

  /** Only an opening order can break safety, and only if the snapshot misses something on its side. */
  lemma UnsafeActOpens(cfg: Config, w: World, a: Account, t: TickInput)
    requires cfg.Scaled() && Safe(cfg, w) && BotOrders(cfg, w.orders) && Working(cfg, w.orders) == []
    requires w.cache == Some(a) && a.spot >= 0.0 && a.margin <= 0.0 && !Safe(cfg, ActOnce(cfg, w, t))
    ensures exists long :: Opens(cfg, a, long) && Misses(cfg, w, a, long)
  {
    hide Chosen, ActOnce, Safe, BotOrders, Filter, Opens, Misses;
    if !Chosen(cfg, a, t).Submit? {
      WithoutOrderSafe(cfg, w, t);
      assert false;
    } else {
      var o := Resting(Chosen(cfg, a, t).intent, t.newId, t.now);
      var w' := Pursuing(w, Chosen(cfg, a, t), t);
      WiderIsSafe(cfg, w, w'.high, w'.low, None);
      if Admissible(cfg, w', o) {
        AddKeepsInvariant(cfg, w'.(cache := None), o, None);
        SubmissionsAddOne(cfg, w, t);
        assert false;
      } else {
        InadmissibleOpens(cfg, w, a, t);
      }
    }
  }

  lemma WiderIsSafe(cfg: Config, w: World, high: real, low: real, cache: Option<Account>)
    requires Safe(cfg, w) && BotOrders(cfg, w.orders) && high >= w.high && low <= w.low
    ensures Safe(cfg, w.(high := high, low := low, cache := cache))
    ensures Invariant(cfg, w.(high := high, low := low, cache := None), true)
  {
  }

  lemma SubmissionsAddOne(cfg: Config, w: World, t: TickInput)
    requires w.cache.Some? && Chosen(cfg, w.cache.value, t).Submit?
    requires var o := Resting(Chosen(cfg, w.cache.value, t).intent, t.newId, t.now);
      var v := Pursuing(w, Chosen(cfg, w.cache.value, t), t);
      && Safe(cfg, v.(cache := None)) && Safe(cfg, v.(orders := w.orders + [o], cache := None))
    ensures Safe(cfg, ActOnce(cfg, w, t))
  {
    hide Chosen, Pending, Filter;
  }

  /** An order that may not join the book opens a side of which the snapshot misses something. */
  lemma InadmissibleOpens(cfg: Config, w: World, a: Account, t: TickInput)
    requires cfg.Scaled() && w.spot >= 0.0 && w.margin <= 0.0 && Working(cfg, w.orders) == []
    requires a.spot >= 0.0 && a.margin <= 0.0 && Chosen(cfg, a, t).Submit?
    requires var w' := Pursuing(w, Chosen(cfg, a, t), t);
      !Admissible(cfg, w', Resting(Chosen(cfg, a, t).intent, t.newId, t.now))
    ensures exists long :: Opens(cfg, a, long) && Misses(cfg, w, a, long)
  {
    hide Decide, WithinCaps, IsMultiple, Filter;
    var inp := PlanInput(a, t);
    if Decide(cfg, inp).intent.protective {
      ProtectiveShape(cfg, inp);
      assert false;
    } else {
      WorkingOrderShape(cfg, inp);
      WorkingOrderSource(cfg, inp);
      var long := Decide(cfg, inp).intent.venue == Spot;
      assert Opens(cfg, a, long) && Misses(cfg, w, a, long);
    }
  }

  /** A decision that submits nothing keeps the world safe whatever its snapshot says. */
  lemma WithoutOrderSafe(cfg: Config, w: World, t: TickInput)
    requires Safe(cfg, w) && BotOrders(cfg, w.orders) && w.cache.Some? && !Chosen(cfg, w.cache.value, t).Submit?
    ensures Safe(cfg, ActOnce(cfg, w, t))
  {
    hide Chosen;
    var w' := w.(cache := None);
    match Chosen(cfg, w.cache.value, t)
    case NoAction(_) =>
    case Cancel(ids) => CancelKeepsInvariant(cfg, w', TakeAtMost(ids, t.cancelled), None);
  }

  lemma Overshoots(cfg: Config, w: World, a: Account, long: bool)
    requires cfg.Scaled() && BotOrders(cfg, w.orders) && Working(cfg, w.orders) == []
    requires w.cache == Some(a) && a.spot >= 0.0 && a.margin <= 0.0 && Opens(cfg, a, long) && Misses(cfg, w, a, long)
    ensures var q := StepsAbove(cfg, Beyond(cfg, w, HeldIn(a, long), long));
      q > SLACK && !Safe(cfg, ActOnce(cfg, w, AmpleTick(cfg, long, HeldIn(a, long), q)))
  {
    hide ActOnce, StepsAbove, Beyond, PermissiveBook, Pending, Filter, BotOrders, Opens;
    var v := if long then Spot else Margin;
    AmpleOrderAddsUp(cfg, w, a, long);
    var q := StepsAbove(cfg, Beyond(cfg, w, HeldIn(a, long), long));
    var after := ActOnce(cfg, w, AmpleTick(cfg, long, HeldIn(a, long), q));
    var o :| after.orders == w.orders + [o] && o.gid == cfg.groupId && Pending([o], v) == q;
    PendingAppends(w.orders, [o], v);
    NothingWorkingNothingPending(cfg, w.orders, v);
  }

  // ---- What a lost response may double --------------------------------------------------------------

  /** A whole venue is large enough to be closed. */
  predicate Closable(cfg: Config, q: real)
    requires cfg.quantityStep > 0.0
  {
    q >= cfg.minQuantity && RoundDown(q, cfg.quantityStep) >= cfg.minQuantity
  }

  /** No stop is shown, or a net holding on this side that it may protect. */
  predicate StopsAllow(cfg: Config, a: Account, long: bool) {
    Filter(a.openOrders, InGroup(cfg.stopGroupId)) == [] || (if long then a.Net() >= 1e-9 else a.Net() <= -1e-9)
  }

  /** Some target on this side has a working order: the other venue is flat, or can be closed first. */
  predicate Pursuable(cfg: Config, a: Account, long: bool)
    requires cfg.quantityStep > 0.0
  {
    StopsAllow(cfg, a, long)
    && (Abs(HeldIn(a, !long)) <= cfg.tolerance || Closable(cfg, Abs(HeldIn(a, !long))))
  }

  /** Or so has some target within the tolerance, which sells the spot metal first. */
  predicate Flattenable(cfg: Config, a: Account)
    requires cfg.quantityStep > 0.0
  {
    1e-9 <= Abs(a.Net()) <= cfg.tolerance + 1e-9 && Closable(cfg, a.spot)
  }

  /** The snapshot lets a decision add a working order. */
  predicate Admits(cfg: Config, a: Account)
    requires cfg.quantityStep > 0.0
  {
    Working(cfg, a.openOrders) == [] && (Pursuable(cfg, a, true) || Pursuable(cfg, a, false) || Flattenable(cfg, a))
  }

  /**
   * Some decision adds a second working order if and only if the snapshot shows none and lets a side be pursued: a lost
   * response is harmless exactly when the next decision is taken on a snapshot that shows the order, or one in which
   * every side is shut by a stop without a holding or by an opposite holding too small to close.
   */
  lemma UnseenOrderDoublesIff(cfg: Config, w: World, a: Account)
    requires cfg.Scaled() && w.cache == Some(a) && a.spot >= 0.0 && a.margin <= 0.0
    ensures (exists t :: |Working(cfg, ActOnce(cfg, w, t).orders)| > |Working(cfg, w.orders)|) <==> Admits(cfg, a)
  {
    hide Admits, ActOnce, Filter;
    if Admits(cfg, a) {
      var t := AdmittedOrder(cfg, a);
      OrderIsSecond(cfg, w, a, t);
    }
    if t :| |Working(cfg, ActOnce(cfg, w, t).orders)| > |Working(cfg, w.orders)| {
      SecondIsAdmitted(cfg, w, a, t);
    }
  }

  /** A decision that places an order of the working group. */
  predicate Works(cfg: Config, a: Account, t: TickInput) {
    Chosen(cfg, a, t).Submit? && Chosen(cfg, a, t).intent.gid == cfg.groupId
  }

  lemma AdmittedOrder(cfg: Config, a: Account) returns (t: TickInput)
    requires cfg.Scaled() && a.spot >= 0.0 && a.margin <= 0.0 && Admits(cfg, a)
    ensures Works(cfg, a, t) && t.outcome == Placed
  {
    hide Filter, RoundDown, Chosen, StepsAbove, PermissiveBook, AmpleTick;
    var long := Pursuable(cfg, a, true);
    if !Pursuable(cfg, a, true) && !Pursuable(cfg, a, false) {
      t := ClosingTick(cfg, FlatTarget(cfg, a), a.spot);
      FlatteningOrder(cfg, a);
    } else if Abs(HeldIn(a, !long)) <= cfg.tolerance {
      AmpleOrder(cfg, a, long, cfg.minQuantity + 1.0);
      t := AmpleTick(cfg, long, HeldIn(a, long), StepsAbove(cfg, cfg.minQuantity + 1.0));
      AmpleIsPlaced(cfg, long, HeldIn(a, long), StepsAbove(cfg, cfg.minQuantity + 1.0));
    } else {
      t := ClosingTick(cfg, FarTarget(cfg, a, long), Abs(HeldIn(a, !long)));
      ClosingOrder(cfg, a, long);
    }
  }

  lemma AmpleIsPlaced(cfg: Config, long: bool, held: real, q: real)
    requires q > SLACK
    ensures AmpleTick(cfg, long, held, q).outcome == Placed
  {
  }

  function FarTarget(cfg: Config, a: Account, long: bool): real {
    var size := Abs(a.Net()) + cfg.tolerance + 1.0;
    OnSide(size, long)
  }

  /** A target within the tolerance for which no stop is withdrawn. */
  function FlatTarget(cfg: Config, a: Account): real {
    var size := Min(Abs(a.Net()), cfg.tolerance);
    if a.Net() > 0.0 then size else -size
  }

  /** A decision for a target, on a book that caps nothing up to the quantity to be closed. */
  function ClosingTick(cfg: Config, target: real, q: real): TickInput
    requires q > 0.0
  {
    TickInput(1, NO_TARGET.(quantity := target), NO_POSITION, PermissiveBook(cfg, q), 0.0, false, false, Placed, 0, 0)
  }

  lemma ClosingOrder(cfg: Config, a: Account, long: bool)
    requires cfg.Scaled() && a.spot >= 0.0 && a.margin <= 0.0 && Working(cfg, a.openOrders) == []
    requires StopsAllow(cfg, a, long) && Abs(HeldIn(a, !long)) > cfg.tolerance && Closable(cfg, Abs(HeldIn(a, !long)))
    ensures Works(cfg, a, ClosingTick(cfg, FarTarget(cfg, a, long), Abs(HeldIn(a, !long))))
  {
    hide Filter, RoundDown, PermissiveBook, Protective, Sorted, Ids, ChildPrice, RoundPrice, Caps, Capped;
    var q := Abs(HeldIn(a, !long));
    var inp := PlanInput(a, ClosingTick(cfg, FarTarget(cfg, a, long), q));
    PermissiveCaps(cfg, inp, q);
    assert NextMove(cfg, inp.target.quantity, a) == if long then Move(Margin, Buy, q) else Move(Spot, Sell, q);
  }

  lemma FlatteningOrder(cfg: Config, a: Account)
    requires cfg.Scaled() && a.spot >= 0.0 && a.margin <= 0.0 && Working(cfg, a.openOrders) == []
    requires Flattenable(cfg, a)
    ensures Works(cfg, a, ClosingTick(cfg, FlatTarget(cfg, a), a.spot))
  {
    hide Filter, RoundDown, PermissiveBook, Protective, Sorted, Ids, ChildPrice, RoundPrice, Caps, Capped;
    var inp := PlanInput(a, ClosingTick(cfg, FlatTarget(cfg, a), a.spot));
    PermissiveCaps(cfg, inp, a.spot);
    assert NextMove(cfg, inp.target.quantity, a) == Move(Spot, Sell, a.spot);
  }

  lemma OrderIsSecond(cfg: Config, w: World, a: Account, t: TickInput)
    requires cfg.Scaled() && w.cache == Some(a) && Works(cfg, a, t) && t.outcome == Placed
    ensures |Working(cfg, ActOnce(cfg, w, t).orders)| > |Working(cfg, w.orders)|
  {
    hide Chosen, Filter;
    var o := Resting(Chosen(cfg, a, t).intent, t.newId, t.now);
    FilterAppends(w.orders, [o], InGroup(cfg.groupId));
    Singleton(o, Spot, cfg.groupId);
    assert ActOnce(cfg, w, t).orders == w.orders + [o];
  }

  lemma SecondIsAdmitted(cfg: Config, w: World, a: Account, t: TickInput)
    requires cfg.Scaled() && w.cache == Some(a) && a.spot >= 0.0 && a.margin <= 0.0
    requires |Working(cfg, ActOnce(cfg, w, t).orders)| > |Working(cfg, w.orders)|
    ensures Admits(cfg, a)
  {
    hide Chosen, Filter, Admits;
    match Chosen(cfg, a, t)
    case NoAction(_) =>
    case Cancel(ids) =>
      WithdrawingShrinks(cfg, w.orders, TakeAtMost(ids, t.cancelled));
    case Submit(i) =>
      FilterAppends(w.orders, [Resting(i, t.newId, t.now)], InGroup(cfg.groupId));
      Singleton(Resting(i, t.newId, t.now), Spot, cfg.groupId);
      WorkIsAdmitted(cfg, a, t);
  }

  lemma WorkIsAdmitted(cfg: Config, a: Account, t: TickInput)
    requires cfg.Scaled() && a.spot >= 0.0 && a.margin <= 0.0 && Works(cfg, a, t)
    ensures Admits(cfg, a)
  {
    hide Decide, RoundDown, Child, Filter, ShouldProtectDuringBuild, Protective;
    var inp := PlanInput(a, t);
    if Decide(cfg, inp).intent.protective {
      ProtectiveShape(cfg, inp);
      assert false;
    } else {
      WorkingOrderSource(cfg, inp);
      var m := NextMove(cfg, inp.target.quantity, a);
      ChildIsClosable(cfg, inp, m.venue, m.side, m.want);
    }
  }

  lemma ChildIsClosable(cfg: Config, inp: Input, venue: Venue, side: Side, want: real)
    requires cfg.Scaled() && inp.direct.Valid() && Child(cfg, inp, venue, side, want).Submit?
    ensures Closable(cfg, want)
  {
    hide RoundDown, RoundPrice, ChildPrice, Caps;
    var capped := Capped(cfg, inp, want);
    assert capped <= want by { assert want in [want] + Caps(cfg, inp.direct, inp.recentVolume); }
    RoundDownMonotone(capped, want, cfg.quantityStep);
  }

  lemma WithdrawingShrinks(cfg: Config, orders: seq<OpenOrder>, gone: seq<int>)
    ensures |Working(cfg, Filter(orders, (o: OpenOrder) => o.id !in gone))| <= |Working(cfg, orders)|
  {
    FilterShrinks(orders, (o: OpenOrder) => o.id !in gone, InGroup(cfg.groupId));
  }

  // ---- Two runs under the default configuration -----------------------------------------------------

  const FLAT := World(0.0, 0.0, [], None, 0.0, 0.0)

  function Quick(afterFirst: seq<Change>): Event {
    Read(Refresh(false, afterFirst, [], 30000.0, 0.0, 2))
  }

  /** A decision to hold one unit. */
  function WantOne(outcome: Outcome, id: int): Event {
    Act(TickInput(2, NO_TARGET.(quantity := 1.0), NO_POSITION, Book(4000.0, 4001.0, 1.0, 1.0, 0.0, 1), 0.0, false,
                  false, outcome, id, 0))
  }

  lemma WantsOne(w: World, outcome: Outcome, id: int)
    requires w.cache == Some(Account(30000.0, 0.0, 0.0, 0.0, [], false, 2)) && w.high <= 1.0 && w.low <= 0.0
    ensures var o := OpenOrder(id, DEFAULTS.groupId, Spot, false, 1.0, 4000.0, 2);
      Step(DEFAULTS, w, WantOne(outcome, id)) == w.(high := 1.0,
        orders := if outcome == Refused then w.orders else w.orders + [o],
        cache := if outcome == Placed then None else w.cache)
  {
    var a := w.cache.value;
    assert NextMove(DEFAULTS, 1.0, a) == Move(Spot, Buy, 1.0);
    assert Floor((1.0 + SLACK) / 0.0001) == 10000 && Floor((4000.0 + SLACK) / 0.1) == 40000;
  }

  lemma RunOneMore(cfg: Config, w: World, es: seq<Event>, e: Event)
    ensures Run(cfg, w, es + [e]) == Step(cfg, Run(cfg, w, es), e)
    ensures Run(cfg, w, []) == w
  {
    hide Step;
    assert (es + [e])[..|es|] == es;
  }

  lemma RunOfThree(cfg: Config, w: World, a: Event, b: Event, c: Event)
    ensures Run(cfg, w, [a, b, c]) == Step(cfg, Step(cfg, Step(cfg, w, a), b), c)
  {
    hide Step, Run;
    RunOneMore(cfg, w, [], a);
    RunOneMore(cfg, w, [a], b);
    RunOneMore(cfg, w, [a, b], c);
    assert [] + [a] == [a] && [a] + [b] == [a, b] && [a, b] + [c] == [a, b, c];
  }

  /**
   * A buy that fills between the wallet and the order request is seen neither as a holding nor as an order, and is
   * bought again.
   */
  lemma TornRefreshOvershoots()
    ensures Initial(DEFAULTS, FLAT)
    ensures var es := [Quick([]), WantOne(Placed, 7), Quick([Fill(0, 1.0)]), WantOne(Placed, 8)];
      Run(DEFAULTS, FLAT, es).spot + Pending(Run(DEFAULTS, FLAT, es).orders, Spot) == 2.0
      && Run(DEFAULTS, FLAT, es).high == 1.0 && !Safe(DEFAULTS, Run(DEFAULTS, FLAT, es))
  {
    hide ActOnce;
    var a, b, c, d := Quick([]), WantOne(Placed, 7), Quick([Fill(0, 1.0)]), WantOne(Placed, 8);
    RunOfThree(DEFAULTS, FLAT, a, b, c);
    RunOneMore(DEFAULTS, FLAT, [a, b, c], d);
    assert [a, b, c] + [d] == [a, b, c, d];
    var w1 := Step(DEFAULTS, FLAT, a);
    WantsOne(w1, Placed, 7);
    var w2 := Step(DEFAULTS, w1, b);
    assert AfterChanges(w2, [Fill(0, 1.0)]) == FillAt(w2, 0, 1.0) by { assert [Fill(0, 1.0)][..0] == []; }
    var w3 := Step(DEFAULTS, w2, c);
    assert w3.spot == 1.0 && w3.orders == [];
    WantsOne(w3, Placed, 8);
    Singleton(OpenOrder(8, DEFAULTS.groupId, Spot, false, 1.0, 4000.0, 2), Spot, 0);
    assert [] + [OpenOrder(8, DEFAULTS.groupId, Spot, false, 1.0, 4000.0, 2)]
        == [OpenOrder(8, DEFAULTS.groupId, Spot, false, 1.0, 4000.0, 2)];
  }

  /** An order whose response is lost is placed again on the snapshot that does not show it. */
  lemma LostResponseDoublesUp()
    ensures var es := [Quick([]), WantOne(Lost, 7), WantOne(Placed, 8)];
      |Working(DEFAULTS, Run(DEFAULTS, FLAT, es).orders)| == 2 && !Safe(DEFAULTS, Run(DEFAULTS, FLAT, es))
  {
    hide ActOnce;
    var a, b, c := Quick([]), WantOne(Lost, 7), WantOne(Placed, 8);
    RunOfThree(DEFAULTS, FLAT, a, b, c);
    var w1 := Step(DEFAULTS, FLAT, a);
    WantsOne(w1, Lost, 7);
    var w2 := Step(DEFAULTS, w1, b);
    WantsOne(w2, Placed, 8);
    var x := OpenOrder(7, DEFAULTS.groupId, Spot, false, 1.0, 4000.0, 2);
    var y := x.(id := 8);
    Singleton(x, Spot, DEFAULTS.groupId);
    Singleton(y, Spot, DEFAULTS.groupId);
    FilterAppends([x], [y], InGroup(DEFAULTS.groupId));
  }
}
