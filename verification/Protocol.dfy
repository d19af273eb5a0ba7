/**
 * The order protocol over whole runs: account refreshes of three separate requests and actions on a possibly cached
 * snapshot, interleaved with arbitrary partial fills and expiries at the exchange.
 */
module Protocol {
  import opened Numbers
  import opened Sequences
  import opened Domain
  import opened Planner
  import opened PlannerFacts

  /**
   * The exchange's holdings and orders, the bot's cached snapshot (None forces a refresh), and the extremes pursued so
   * far: high is the largest of the initial spot holding and all targets an opening order was planned for, low the
   * smallest of the initial margin position and those targets.
   */
  datatype World = World(
    spot: real, margin: real, orders: seq<OpenOrder>, cache: Option<Account>, high: real, low: real)

  /** What happens at the exchange without the bot. */
  datatype Change = Fill(index: nat, quantity: real) | Expire(index: nat)

  /**
   * One account refresh. The adapter asks for the wallet, then the positions, then the orders, and the exchange moves
   * on in between; ordersFirst is the refresh that would ask for the orders before the two holdings.
   */
  datatype Refresh = Refresh(
    ordersFirst: bool, afterFirst: seq<Change>, afterSecond: seq<Change>, equity: real, marginBasePrice: real,
    now: Time)

  /** What becomes of a submission: resting, not placed, or placed although the response reports an error. */
  datatype Outcome = Placed | Refused | Lost

  /**
   * One decision: what it reads besides the snapshot, and how the exchange answers. blocked is the branch that only
   * withdraws working orders while entries are blocked; cancelled counts the cancellations that went through before
   * an error.
   */
  datatype TickInput = TickInput(
    now: Time, target: Target, position: Position, direct: Book, recentVolume: real, urgent: bool, blocked: bool,
    outcome: Outcome, newId: int, cancelled: nat)

  datatype Event = Market(change: Change) | Read(refresh: Refresh) | Act(t: TickInput)

  // ---- The exchange ---------------------------------------------------------------------------

  /** How much of a fill the exchange executes: reductions stop at zero. */
  function Executed(w: World, o: OpenOrder, q: real): real {
    match o.venue
    case Spot => if o.remaining > 0.0 then q else Min(q, w.spot)
    case Margin => if o.remaining < 0.0 then q else Min(q, -w.margin)
  }

  function Without(orders: seq<OpenOrder>, i: nat): seq<OpenOrder>
    requires i < |orders|
  {
    orders[..i] + orders[i + 1..]
  }

  predicate Fillable(w: World, i: nat, q: real) {
    i < |w.orders| && 0.0 < q <= Abs(w.orders[i].remaining)
  }

  /** The signed quantity that changes hands. */
  function Movement(w: World, o: OpenOrder, q: real): real {
    if o.remaining > 0.0 then Executed(w, o, q) else -Executed(w, o, q)
  }

  function LeftOver(w: World, o: OpenOrder, q: real): seq<OpenOrder> {
    var left := o.(remaining := o.remaining - Movement(w, o, q));
    if left.remaining == 0.0 then [] else [left]
  }

  function FillAt(w: World, i: nat, q: real): World {
    if !Fillable(w, i, q) then w
    else
      var o := w.orders[i];
      w.(spot := if o.venue == Spot then w.spot + Movement(w, o, q) else w.spot,
         margin := if o.venue == Margin then w.margin + Movement(w, o, q) else w.margin,
         orders := w.orders[..i] + LeftOver(w, o, q) + w.orders[i + 1..])
  }

  function Changed(w: World, c: Change): World {
    match c
    case Fill(i, q) => FillAt(w, i, q)
    case Expire(i) => if i < |w.orders| then w.(orders := Without(w.orders, i)) else w
  }

  function AfterChanges(w: World, cs: seq<Change>): World {
    if cs == [] then w else Changed(AfterChanges(w, cs[..|cs| - 1]), cs[|cs| - 1])
  }

  // ---- The bot --------------------------------------------------------------------------------

  /** The account a refresh puts together from its three answers, and the exchange at the last of them. */
  function Snapshot(w: World, r: Refresh): Account {
    var v := AfterChanges(w, r.afterFirst);
    var u := AfterChanges(v, r.afterSecond);
    if r.ordersFirst then Account(r.equity, v.spot, u.margin, r.marginBasePrice, w.orders, false, r.now)
    else Account(r.equity, w.spot, v.margin, r.marginBasePrice, u.orders, false, r.now)
  }

  function Refreshed(w: World, r: Refresh): World {
    AfterChanges(AfterChanges(w, r.afterFirst), r.afterSecond).(cache := Some(Snapshot(w, r)))
  }

  function PlanInput(a: Account, t: TickInput): Input {
    Input(t.now, a, t.target, t.position, t.direct, t.recentVolume, t.urgent)
  }

  function Chosen(cfg: Config, a: Account, t: TickInput): Plan {
    var working := Filter(a.openOrders, InGroup(cfg.groupId));
    if t.blocked && working != [] then Cancel(Ids(working)) else Decide(cfg, PlanInput(a, t))
  }

  function TakeAtMost<T>(s: seq<T>, n: nat): seq<T> {
    if n < |s| then s[..n] else s
  }

  function Carry(w: World, a: Account, plan: Plan, t: TickInput): World {
    match plan
    case NoAction(_) => w.(cache := Some(a))
    case Cancel(ids) =>
      var gone := TakeAtMost(ids, t.cancelled);
      w.(orders := Filter(w.orders, (o: OpenOrder) => o.id !in gone), cache := if gone == ids then None else Some(a))
    case Submit(i) =>
      var resting := w.orders + [Resting(i, t.newId, t.now)];
      match t.outcome
      case Placed => w.(orders := resting, cache := None)
      case Refused => w.(cache := Some(a))
      case Lost => w.(orders := resting, cache := Some(a))
  }

  /** An opening order pursues its target. */
  function Pursuing(w: World, plan: Plan, t: TickInput): World {
    if OpeningPlan(plan) then w.(high := Max(w.high, t.target.quantity), low := Min(w.low, t.target.quantity)) else w
  }

  /** One decision on the snapshot at hand; without one the bot cannot act. */
  function ActOnce(cfg: Config, w: World, t: TickInput): World {
    if w.cache.None? then w
    else
      var a := w.cache.value;
      Carry(Pursuing(w, Chosen(cfg, a, t), t), a, Chosen(cfg, a, t), t)
  }

  function Step(cfg: Config, w: World, e: Event): World {
    match e
    case Market(c) => Changed(w, c)
    case Read(r) => Refreshed(w, r)
    case Act(t) => ActOnce(cfg, w, t)
  }

  function Run(cfg: Config, w: World, es: seq<Event>): World {
    if es == [] then w else Step(cfg, Run(cfg, w, es[..|es| - 1]), es[|es| - 1])
  }

  // ---- Safety ---------------------------------------------------------------------------------

  /** What an order could still add to the holding in a venue. */
  function OpeningLeft(o: OpenOrder, v: Venue): (r: real)
    ensures r >= 0.0
  {
    if o.venue == v && (if v == Spot then o.remaining > 0.0 else o.remaining < 0.0) then Abs(o.remaining) else 0.0
  }

  function Pending(orders: seq<OpenOrder>, v: Venue): (r: real)
    ensures r >= 0.0
  {
    if orders == [] then 0.0 else Pending(orders[..|orders| - 1], v) + OpeningLeft(orders[|orders| - 1], v)
  }

  predicate Exclusive(cfg: Config, w: World) {
    && !(w.spot > cfg.tolerance && w.margin < -cfg.tolerance)
    && (Pending(w.orders, Spot) > 0.0 ==> w.margin >= -cfg.tolerance)
    && (Pending(w.orders, Margin) > 0.0 ==> w.spot <= cfg.tolerance)
  }

  predicate NoOvershoot(w: World) {
    && w.spot + Pending(w.orders, Spot) <= w.high + SLACK
    && w.margin - Pending(w.orders, Margin) >= w.low - SLACK
  }

  function Working(cfg: Config, orders: seq<OpenOrder>): seq<OpenOrder> {
    Filter(orders, InGroup(cfg.groupId))
  }

  /** The order belongs to the bot, and if it is a stop it can only reduce. */
  predicate BotOrder(cfg: Config, o: OpenOrder) {
    o.gid == cfg.groupId
    || (o.gid == cfg.stopGroupId && OpeningLeft(o, Spot) == 0.0 && OpeningLeft(o, Margin) == 0.0)
  }

  predicate BotOrders(cfg: Config, orders: seq<OpenOrder>) {
    forall o :: o in orders ==> BotOrder(cfg, o)
  }

  /** A cached snapshot without working orders is still right about the working orders and bounds the holdings. */
  predicate CacheBounds(cfg: Config, w: World) {
    w.cache.Some? && Working(cfg, w.cache.value.openOrders) == [] ==>
      && Working(cfg, w.orders) == []
      && w.spot <= w.cache.value.spot && w.margin >= w.cache.value.margin
  }

  predicate Safe(cfg: Config, w: World) {
    && w.spot >= 0.0 && w.margin <= 0.0
    && Exclusive(cfg, w) && NoOvershoot(w)
    && |Working(cfg, w.orders)| <= 1
  }

  predicate Invariant(cfg: Config, w: World, trusted: bool) {
    Safe(cfg, w) && BotOrders(cfg, w.orders) && (trusted ==> CacheBounds(cfg, w))
  }

  /** A fresh start: at most one venue held, nothing working, only protective stops resting, nothing cached. */
  predicate Initial(cfg: Config, w: World) {
    && w.spot >= 0.0 && w.margin <= 0.0 && !(w.spot > cfg.tolerance && w.margin < -cfg.tolerance)
    && w.high == w.spot && w.low == w.margin && w.cache.None?
    && BotOrders(cfg, w.orders) && Working(cfg, w.orders) == []
  }

  // ---- Order-list algebra -----------------------------------------------------------------------

  lemma {:induction false} PendingAppends(a: seq<OpenOrder>, b: seq<OpenOrder>, v: Venue)
    ensures Pending(a + b, v) == Pending(a, v) + Pending(b, v)
  {
    if b == [] {
      assert a + b == a;
    } else {
      assert (a + b)[..|a + b| - 1] == a + b[..|b| - 1];
      PendingAppends(a, b[..|b| - 1], v);
    }
  }

  lemma {:induction false} FilteringShrinksPending(orders: seq<OpenOrder>, keep: OpenOrder -> bool, v: Venue)
    ensures Pending(Filter(orders, keep), v) <= Pending(orders, v)
  {
    if orders != [] {
      var front, last := orders[..|orders| - 1], orders[|orders| - 1];
      FilteringShrinksPending(front, keep, v);
      PendingAppends(Filter(front, keep), [last], v);
      assert Pending([last], v) == Pending([], v) + OpeningLeft(last, v) by { assert [last][..0] == []; }
    }
  }

  lemma Split(orders: seq<OpenOrder>, i: nat)
    requires i < |orders|
    ensures orders == orders[..i] + [orders[i]] + orders[i + 1..]
  {
  }

  lemma Singleton(o: OpenOrder, v: Venue, gid: int)
    ensures Pending([o], v) == OpeningLeft(o, v)
    ensures Filter([o], InGroup(gid)) == if o.gid == gid then [o] else []
  {
    assert [o][..0] == [];
  }

  /** Replacing one order by a smaller one of the same group, or by nothing. */
  lemma Replace(cfg: Config, orders: seq<OpenOrder>, i: nat, sub: seq<OpenOrder>)
    requires i < |orders| && |sub| <= 1 && (sub == [] || sub[0].gid == orders[i].gid)
    ensures var r := orders[..i] + sub + orders[i + 1..];
      && (forall v :: Pending(r, v) == Pending(orders, v) - OpeningLeft(orders[i], v) + Pending(sub, v))
      && |Working(cfg, r)| <= |Working(cfg, orders)|
  {
    hide Pending, OpeningLeft, Filter;
    var a, o, b := orders[..i], orders[i], orders[i + 1..];
    var g := InGroup(cfg.groupId);
    Split(orders, i);
    forall v ensures Pending(a + sub + b, v) == Pending(orders, v) - OpeningLeft(o, v) + Pending(sub, v) {
      PendingAppends(a + sub, b, v);
      PendingAppends(a, sub, v);
      PendingAppends(a + [o], b, v);
      PendingAppends(a, [o], v);
      Singleton(o, v, cfg.groupId);
    }
    FilterAppends(a + sub, b, g);
    FilterAppends(a, sub, g);
    FilterAppends(a + [o], b, g);
    FilterAppends(a, [o], g);
    Singleton(o, Spot, cfg.groupId);
    if sub != [] {
      assert sub == [sub[0]];
      Singleton(sub[0], Spot, cfg.groupId);
    }
  }

  lemma {:induction false} NothingWorkingNothingPending(cfg: Config, orders: seq<OpenOrder>, v: Venue)
    requires BotOrders(cfg, orders) && Working(cfg, orders) == []
    ensures Pending(orders, v) == 0.0
  {
    if orders != [] {
      var front, last := orders[..|orders| - 1], orders[|orders| - 1];
      assert last !in Working(cfg, orders) && !InGroup(cfg.groupId)(last);
      NothingWorkingNothingPending(cfg, front, v);
      assert BotOrder(cfg, last) && (v == Spot || v == Margin);
    }
  }

  /** While one working order is open, no other order can enlarge a holding. */
  lemma OnlyOneOpens(cfg: Config, orders: seq<OpenOrder>, i: nat, v: Venue)
    requires i < |orders| && BotOrders(cfg, orders) && |Working(cfg, orders)| <= 1
    requires orders[i].gid == cfg.groupId
    ensures Pending(orders, v) == OpeningLeft(orders[i], v)
  {
    hide Pending, OpeningLeft, BotOrder;
    var a, o, b := orders[..i], orders[i], orders[i + 1..];
    var g := InGroup(cfg.groupId);
    Split(orders, i);
    FilterAppends(a + [o], b, g);
    FilterAppends(a, [o], g);
    Singleton(o, v, cfg.groupId);
    assert |Filter(a, g)| + 1 + |Filter(b, g)| <= 1;
    NothingWorkingNothingPending(cfg, a, v);
    NothingWorkingNothingPending(cfg, b, v);
    PendingAppends(a + [o], b, v);
    PendingAppends(a, [o], v);
  }

  // ---- Every step keeps the invariant -----------------------------------------------------------

  /** What is left of an order after a fill opens exactly that much less. */
  lemma LeftOverPending(cfg: Config, w: World, o: OpenOrder, q: real)
    requires w.spot >= 0.0 && w.margin <= 0.0 && 0.0 < q <= Abs(o.remaining) && BotOrder(cfg, o)
    ensures |LeftOver(w, o, q)| <= 1 && (forall x :: x in LeftOver(w, o, q) ==> x.gid == o.gid)
    ensures BotOrders(cfg, LeftOver(w, o, q))
    ensures o.venue == Spot ==> Pending(LeftOver(w, o, q), Spot) <= OpeningLeft(o, Spot) - Max(0.0, Movement(w, o, q))
    ensures o.venue == Margin ==>
              Pending(LeftOver(w, o, q), Margin) <= OpeningLeft(o, Margin) + Min(0.0, Movement(w, o, q))
    ensures forall v :: v != o.venue ==> Pending(LeftOver(w, o, q), v) == 0.0 == OpeningLeft(o, v)
  {
    var left := o.(remaining := o.remaining - Movement(w, o, q));
    Singleton(left, Spot, cfg.groupId);
    Singleton(left, Margin, cfg.groupId);
  }

  lemma FillKeepsSafe(cfg: Config, w: World, i: nat, q: real)
    requires Safe(cfg, w) && BotOrders(cfg, w.orders) && Fillable(w, i, q)
    ensures Safe(cfg, FillAt(w, i, q)) && BotOrders(cfg, FillAt(w, i, q).orders)
  {
    hide Pending, LeftOver;
    var o := w.orders[i];
    var sub := LeftOver(w, o, q);
    assert o in w.orders && BotOrder(cfg, o);
    LeftOverPending(cfg, w, o, q);
    Replace(cfg, w.orders, i, sub);
    Split(w.orders, i);
    assert BotOrders(cfg, FillAt(w, i, q).orders);
    if o.gid == cfg.groupId {
      OnlyOneOpens(cfg, w.orders, i, Spot);
      OnlyOneOpens(cfg, w.orders, i, Margin);
    }
  }

  /** While nothing works, fills can only be those of stops and only reduce. */
  lemma FillKeepsCache(cfg: Config, w: World, i: nat, q: real)
    requires w.spot >= 0.0 && w.margin <= 0.0 && BotOrders(cfg, w.orders) && CacheBounds(cfg, w) && Fillable(w, i, q)
    ensures CacheBounds(cfg, FillAt(w, i, q))
  {
    hide Pending;
    if w.cache.Some? && Working(cfg, w.cache.value.openOrders) == [] {
      var o := w.orders[i];
      assert o in w.orders && BotOrder(cfg, o);
      LeftOverPending(cfg, w, o, q);
      Replace(cfg, w.orders, i, LeftOver(w, o, q));
      assert o !in Working(cfg, w.orders) && !InGroup(cfg.groupId)(o);
    }
  }

  lemma HoldingsSigned(cfg: Config, w: World)
    requires Safe(cfg, w)
    ensures w.spot >= 0.0 && w.margin <= 0.0
  {
  }

  lemma FillKeepsInvariant(cfg: Config, w: World, i: nat, q: real, trusted: bool)
    requires Invariant(cfg, w, trusted)
    ensures Invariant(cfg, FillAt(w, i, q), trusted)
  {
    hide Safe, BotOrders, CacheBounds;
    if Fillable(w, i, q) {
      HoldingsSigned(cfg, w);
      FillKeepsSafe(cfg, w, i, q);
      if trusted {
        FillKeepsCache(cfg, w, i, q);
      }
    }
  }

  lemma ExpireKeepsInvariant(cfg: Config, w: World, i: nat, trusted: bool)
    requires Invariant(cfg, w, trusted)
    ensures Invariant(cfg, Changed(w, Expire(i)), trusted)
  {
    if i < |w.orders| {
      Replace(cfg, w.orders, i, []);
      assert w.orders[..i] + [] + w.orders[i + 1..] == Without(w.orders, i);
      Split(w.orders, i);
      assert BotOrders(cfg, Without(w.orders, i));
    }
  }

  lemma ChangeKeepsInvariant(cfg: Config, w: World, c: Change, trusted: bool)
    requires Invariant(cfg, w, trusted)
    ensures Invariant(cfg, Changed(w, c), trusted)
  {
    match c
    case Fill(i, q) => FillKeepsInvariant(cfg, w, i, q, trusted);
    case Expire(i) => ExpireKeepsInvariant(cfg, w, i, trusted);
  }

  lemma {:induction false} ChangesKeepInvariant(cfg: Config, w: World, cs: seq<Change>, trusted: bool)
    requires Invariant(cfg, w, trusted)
    ensures Invariant(cfg, AfterChanges(w, cs), trusted)
  {
    hide Invariant, Changed;
    if cs != [] {
      ChangesKeepInvariant(cfg, w, cs[..|cs| - 1], trusted);
      ChangeKeepsInvariant(cfg, AfterChanges(w, cs[..|cs| - 1]), cs[|cs| - 1], trusted);
    }
  }

  // ---- Refreshes --------------------------------------------------------------------------------

  /** The change fills an order that enlarges the holding in this venue. */
  predicate FillsOpening(w: World, c: Change, v: Venue) {
    c.Fill? && Fillable(w, c.index, c.quantity) && OpeningLeft(w.orders[c.index], v) > 0.0
  }

  /** No opening order of this venue fills during the changes. */
  predicate Quiet(w: World, cs: seq<Change>, v: Venue) {
    cs != [] ==>
      var front := cs[..|cs| - 1];
      Quiet(w, front, v) && !FillsOpening(AfterChanges(w, front), cs[|cs| - 1], v)
  }

  /**
   * The refresh reads the orders first, or no spot buy fills after the wallet is read and no margin sell after the
   * positions are, until the orders are read.
   */
  predicate Calm(w: World, r: Refresh) {
    var v := AfterChanges(w, r.afterFirst);
    r.ordersFirst || (Quiet(w, r.afterFirst, Spot) && Quiet(v, r.afterSecond, Spot) && Quiet(v, r.afterSecond, Margin))
  }

  lemma {:induction false} QuietOnlyReduces(cfg: Config, w: World, cs: seq<Change>, v: Venue)
    requires Safe(cfg, w) && BotOrders(cfg, w.orders) && Quiet(w, cs, v)
    ensures v == Spot ==> AfterChanges(w, cs).spot <= w.spot
    ensures v == Margin ==> AfterChanges(w, cs).margin >= w.margin
  {
    hide Safe, BotOrders;
    if cs != [] {
      var front := cs[..|cs| - 1];
      QuietOnlyReduces(cfg, w, front, v);
      assert Invariant(cfg, w, false);
      ChangesKeepInvariant(cfg, w, front, false);
      HoldingsSigned(cfg, AfterChanges(w, front));
    }
  }

  /** While nothing works, no opening order exists, so every stretch of changes is quiet and nothing starts to work. */
  lemma {:induction false} IdleIsQuiet(cfg: Config, w: World, cs: seq<Change>, v: Venue)
    requires Safe(cfg, w) && BotOrders(cfg, w.orders) && Working(cfg, w.orders) == []
    ensures Quiet(w, cs, v) && Working(cfg, AfterChanges(w, cs).orders) == []
  {
    hide Safe;
    if cs != [] {
      var front, c := cs[..|cs| - 1], cs[|cs| - 1];
      IdleIsQuiet(cfg, w, front, v);
      var x := AfterChanges(w, front);
      assert Invariant(cfg, w, false);
      ChangesKeepInvariant(cfg, w, front, false);
      HoldingsSigned(cfg, x);
      IdleStaysIdle(cfg, x, c, v);
    }
  }

  lemma IdleStaysIdle(cfg: Config, w: World, c: Change, v: Venue)
    requires w.spot >= 0.0 && w.margin <= 0.0 && BotOrders(cfg, w.orders) && Working(cfg, w.orders) == []
    ensures !FillsOpening(w, c, v) && Working(cfg, Changed(w, c).orders) == []
  {
    hide Pending;
    if c.Fill? && Fillable(w, c.index, c.quantity) {
      var o := w.orders[c.index];
      assert o in w.orders && BotOrder(cfg, o) && o !in Working(cfg, w.orders) && !InGroup(cfg.groupId)(o);
      LeftOverPending(cfg, w, o, c.quantity);
      Replace(cfg, w.orders, c.index, LeftOver(w, o, c.quantity));
      assert v == Spot || v == Margin;
    } else if c.Expire? && c.index < |w.orders| {
      Replace(cfg, w.orders, c.index, []);
      assert w.orders[..c.index] + [] + w.orders[c.index + 1..] == Without(w.orders, c.index);
    }
  }

  /** A refresh keeps the world safe, and a calm one yields a snapshot that bounds it. */
  lemma ReadKeepsInvariant(cfg: Config, w: World, r: Refresh)
    requires Safe(cfg, w) && BotOrders(cfg, w.orders)
    ensures Invariant(cfg, Refreshed(w, r), Calm(w, r))
  {
    hide Safe, BotOrders, Quiet;
    var v := AfterChanges(w, r.afterFirst);
    var u := AfterChanges(v, r.afterSecond);
    assert Invariant(cfg, w, false);
    ChangesKeepInvariant(cfg, w, r.afterFirst, false);
    ChangesKeepInvariant(cfg, v, r.afterSecond, false);
    CacheIsNoHolding(cfg, u, Some(Snapshot(w, r)));
    if r.ordersFirst {
      if Working(cfg, w.orders) == [] {
        IdleIsQuiet(cfg, w, r.afterFirst, Spot);
        IdleIsQuiet(cfg, v, r.afterSecond, Spot);
        IdleIsQuiet(cfg, v, r.afterSecond, Margin);
        QuietOnlyReduces(cfg, v, r.afterSecond, Spot);
      }
    } else if Calm(w, r) {
      QuietOnlyReduces(cfg, w, r.afterFirst, Spot);
      QuietOnlyReduces(cfg, v, r.afterSecond, Spot);
      QuietOnlyReduces(cfg, v, r.afterSecond, Margin);
    }
  }

  lemma CacheIsNoHolding(cfg: Config, w: World, cache: Option<Account>)
    requires Safe(cfg, w)
    ensures Safe(cfg, w.(cache := cache))
  {
  }

  // ---- Actions ----------------------------------------------------------------------------------

  lemma CancelKeepsInvariant(cfg: Config, w: World, gone: seq<int>, cache: Option<Account>)
    requires Invariant(cfg, w, true) && (cache.Some? ==> CacheBounds(cfg, w.(cache := cache)))
    ensures Invariant(cfg, w.(orders := Filter(w.orders, (o: OpenOrder) => o.id !in gone), cache := cache), true)
  {
    var keep := (o: OpenOrder) => o.id !in gone;
    FilteringShrinksPending(w.orders, keep, Spot);
    FilteringShrinksPending(w.orders, keep, Margin);
    FilterShrinks(w.orders, keep, InGroup(cfg.groupId));
  }

  /** An order that may join the book: a reducing stop, or a sole working order its venue has room for. */
  predicate Admissible(cfg: Config, w: World, o: OpenOrder) {
    var buys, sells := OpeningLeft(o, Spot), OpeningLeft(o, Margin);
    && BotOrder(cfg, o)
    && (o.gid == cfg.groupId ==> Working(cfg, w.orders) == [])
    && (buys > 0.0 ==> w.margin >= -cfg.tolerance && w.spot + buys <= w.high + SLACK)
    && (sells > 0.0 ==> w.spot <= cfg.tolerance && w.margin - sells >= w.low - SLACK)
  }

  lemma AddEffect(cfg: Config, w: World, o: OpenOrder)
    requires BotOrders(cfg, w.orders) && BotOrder(cfg, o)
    requires |Working(cfg, w.orders)| <= 1 && (o.gid == cfg.groupId ==> Working(cfg, w.orders) == [])
    ensures forall v :: Pending(w.orders + [o], v) == Pending(w.orders, v) + OpeningLeft(o, v)
    ensures |Working(cfg, w.orders + [o])| <= 1 && BotOrders(cfg, w.orders + [o])
    ensures o.gid == cfg.groupId ==> Pending(w.orders, Spot) == 0.0 == Pending(w.orders, Margin)
  {
    hide Pending, OpeningLeft, BotOrder;
    forall v ensures Pending(w.orders + [o], v) == Pending(w.orders, v) + OpeningLeft(o, v) {
      PendingAppends(w.orders, [o], v);
      Singleton(o, v, cfg.groupId);
    }
    FilterAppends(w.orders, [o], InGroup(cfg.groupId));
    Singleton(o, Spot, cfg.groupId);
    if o.gid == cfg.groupId {
      NothingWorkingNothingPending(cfg, w.orders, Spot);
      NothingWorkingNothingPending(cfg, w.orders, Margin);
    }
  }

  lemma AddKeepsInvariant(cfg: Config, w: World, o: OpenOrder, cache: Option<Account>)
    requires Invariant(cfg, w, true) && Admissible(cfg, w, o)
    ensures Invariant(cfg, w.(orders := w.orders + [o], cache := cache), cache.None?)
  {
    hide Pending, OpeningLeft, Working, BotOrders;
    AddEffect(cfg, w, o);
  }

  /** A stop that joins the book does not disturb what the snapshot says. */
  lemma StopKeepsCache(cfg: Config, w: World, o: OpenOrder)
    requires CacheBounds(cfg, w) && o.gid != cfg.groupId
    ensures CacheBounds(cfg, w.(orders := w.orders + [o]))
  {
    FilterAppends(w.orders, [o], InGroup(cfg.groupId));
    Singleton(o, Spot, cfg.groupId);
  }

  /** Every order the planner submits from a snapshot that bounds the world is admissible. */
  lemma PlannedOrderIsAdmissible(cfg: Config, w: World, t: TickInput)
    requires cfg.Scaled() && w.spot >= 0.0 && w.margin <= 0.0
    requires w.cache.Some? && CacheBounds(cfg, w)
    requires OpeningPlan(Decide(cfg, PlanInput(w.cache.value, t))) ==>
               w.high >= t.target.quantity && w.low <= t.target.quantity
    requires Decide(cfg, PlanInput(w.cache.value, t)).Submit?
    ensures Admissible(cfg, w, Resting(Decide(cfg, PlanInput(w.cache.value, t)).intent, t.newId, t.now))
  {
    hide Decide, WithinCaps, IsMultiple;
    var inp := PlanInput(w.cache.value, t);
    if Decide(cfg, inp).intent.protective {
      ProtectiveShape(cfg, inp);
    } else {
      WorkingOrderShape(cfg, inp);
    }
  }

  /** The response to a working order is lost: it rests at the exchange, but the bot keeps its snapshot. */
  predicate LosesWorkingOrder(cfg: Config, w: World, t: TickInput) {
    && w.cache.Some? && t.outcome == Lost
    && Chosen(cfg, w.cache.value, t).Submit? && Chosen(cfg, w.cache.value, t).intent.gid == cfg.groupId
  }

  lemma PursuingKeepsInvariant(cfg: Config, w: World, plan: Plan, t: TickInput)
    requires Invariant(cfg, w, true)
    ensures Invariant(cfg, Pursuing(w, plan, t), true)
    ensures OpeningPlan(plan) ==>
      Pursuing(w, plan, t).high >= t.target.quantity && Pursuing(w, plan, t).low <= t.target.quantity
    ensures Pursuing(w, plan, t).cache == w.cache && Pursuing(w, plan, t).orders == w.orders
  {
  }

  /** A chosen order is admissible once its target is pursued. */
  lemma ChosenIsAdmissible(cfg: Config, w: World, t: TickInput)
    requires cfg.Scaled() && Invariant(cfg, w, true) && w.cache.Some? && Chosen(cfg, w.cache.value, t).Submit?
    ensures var plan := Chosen(cfg, w.cache.value, t);
      Admissible(cfg, Pursuing(w, plan, t), Resting(plan.intent, t.newId, t.now))
  {
    hide Decide, CacheBounds, Admissible, BotOrders;
    PursuingKeepsInvariant(cfg, w, Chosen(cfg, w.cache.value, t), t);
    PlannedOrderIsAdmissible(cfg, Pursuing(w, Chosen(cfg, w.cache.value, t), t), t);
  }

  lemma ActKeepsInvariant(cfg: Config, w: World, t: TickInput)
    requires cfg.Scaled() && Invariant(cfg, w, true)
    ensures Invariant(cfg, ActOnce(cfg, w, t), !LosesWorkingOrder(cfg, w, t))
  {
    hide Chosen, Safe, BotOrders, CacheBounds, Admissible, Pursuing;
    if w.cache.Some? {
      var a := w.cache.value;
      PursuingKeepsInvariant(cfg, w, Chosen(cfg, a, t), t);
      var w' := Pursuing(w, Chosen(cfg, a, t), t);
      match Chosen(cfg, a, t)
      case NoAction(_) =>
      case Cancel(ids) =>
        var gone := TakeAtMost(ids, t.cancelled);
        CancelKeepsInvariant(cfg, w', gone, if gone == ids then None else Some(a));
      case Submit(i) =>
        if t.outcome != Refused {
          var o := Resting(i, t.newId, t.now);
          ChosenIsAdmissible(cfg, w, t);
          AddKeepsInvariant(cfg, w', o, if t.outcome == Placed then None else Some(a));
          if t.outcome == Lost && i.gid != cfg.groupId {
            StopKeepsCache(cfg, w', o);
          }
        }
    }
  }

  // ---- Runs -------------------------------------------------------------------------------------

  /** The snapshot at hand comes from a calm refresh, and no working order has been lost since. */
  predicate Trusted(cfg: Config, w: World, es: seq<Event>) {
    es == [] ||
    var front := es[..|es| - 1];
    var was := Run(cfg, w, front);
    match es[|es| - 1]
    case Market(_) => Trusted(cfg, w, front)
    case Read(r) => Calm(was, r)
    case Act(t) => Trusted(cfg, w, front) && !LosesWorkingOrder(cfg, was, t)
  }

  /** Every decision is taken on a snapshot that can be trusted. */
  predicate Careful(cfg: Config, w: World, es: seq<Event>) {
    es == [] ||
    var front := es[..|es| - 1];
    Careful(cfg, w, front) && (es[|es| - 1].Act? ==> Trusted(cfg, w, front))
  }

  lemma {:induction false} RunKeepsInvariant(cfg: Config, w: World, es: seq<Event>)
    requires cfg.Scaled() && Invariant(cfg, w, true) && Careful(cfg, w, es)
    ensures Invariant(cfg, Run(cfg, w, es), Trusted(cfg, w, es))
  {
    hide Invariant, Changed, Refreshed, ActOnce, Calm, LosesWorkingOrder;
    if es != [] {
      var front := es[..|es| - 1];
      var was := Run(cfg, w, front);
      RunKeepsInvariant(cfg, w, front);
      match es[|es| - 1]
      case Market(c) => ChangeKeepsInvariant(cfg, was, c, Trusted(cfg, w, front));
      case Read(r) =>
        InvariantIsSafe(cfg, was, Trusted(cfg, w, front));
        ReadKeepsInvariant(cfg, was, r);
      case Act(t) => ActKeepsInvariant(cfg, was, t);
    }
  }

  /** The snapshot at hand shows no negative spot balance and no margin long. */
  predicate CacheSigned(w: World) {
    w.cache.Some? ==> w.cache.value.spot >= 0.0 && w.cache.value.margin <= 0.0
  }

  lemma SnapshotIsSigned(cfg: Config, w: World, r: Refresh)
    requires Safe(cfg, w) && BotOrders(cfg, w.orders)
    ensures CacheSigned(Refreshed(w, r))
  {
    hide Safe, BotOrders;
    var v := AfterChanges(w, r.afterFirst);
    assert Invariant(cfg, w, false);
    ChangesKeepInvariant(cfg, w, r.afterFirst, false);
    ChangesKeepInvariant(cfg, v, r.afterSecond, false);
    HoldingsSigned(cfg, w);
    HoldingsSigned(cfg, v);
    HoldingsSigned(cfg, AfterChanges(v, r.afterSecond));
  }

  lemma {:induction false} SnapshotsAreSigned(cfg: Config, w: World, es: seq<Event>)
    requires cfg.Scaled() && Invariant(cfg, w, true) && Careful(cfg, w, es) && CacheSigned(w)
    ensures CacheSigned(Run(cfg, w, es))
  {
    hide Invariant, Refreshed, Chosen;
    if es != [] {
      var front := es[..|es| - 1];
      var was := Run(cfg, w, front);
      SnapshotsAreSigned(cfg, w, front);
      RunKeepsInvariant(cfg, w, front);
      if es[|es| - 1].Read? {
        InvariantIsSafe(cfg, was, Trusted(cfg, w, front));
        SnapshotIsSigned(cfg, was, es[|es| - 1].refresh);
      }
    }
  }

  lemma InitialIsInvariant(cfg: Config, w: World)
    requires cfg.Scaled() && Initial(cfg, w)
    ensures Invariant(cfg, w, true) && CacheSigned(w)
  {
    NothingWorkingNothingPending(cfg, w.orders, Spot);
    NothingWorkingNothingPending(cfg, w.orders, Margin);
  }

  lemma InvariantIsSafe(cfg: Config, w: World, trusted: bool)
    requires Invariant(cfg, w, trusted)
    ensures Safe(cfg, w) && BotOrders(cfg, w.orders)
  {
  }

  /**
   * Venue exclusion and no overshoot over every careful run: whatever the targets, positions, books, cached snapshots,
   * refusals, partial cancellations, fills and expiries, the two venues are never held or being opened together, at
   * most one working order exists, and holdings plus pending entries stay within the extremes pursued.
   */
  lemma EveryRunIsSafe(cfg: Config, w: World, es: seq<Event>)
    requires cfg.Scaled() && Initial(cfg, w) && Careful(cfg, w, es)
    ensures Safe(cfg, Run(cfg, w, es))
  {
    InitialIsInvariant(cfg, w);
    RunKeepsInvariant(cfg, w, es);
    InvariantIsSafe(cfg, Run(cfg, w, es), Trusted(cfg, w, es));
  }
}
