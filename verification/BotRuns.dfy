/** Sequences of whole ticks against an exchange: they are runs of the order protocol, spaced, latched and blocked. */
module BotRuns {
  import Numbers
  import opened Sequences
  import opened Domain
  import opened Planner
  import opened App
  import PlannerFacts
  import Protocol
  import SnapshotLimits
  import OrderGuard
  import Tracker
  import Ledger
  import RiskManager
  import Strategy
  import Reentry
  import TickFacts

  // ---- One tick against the exchange ----------------------------------------------------------------

  /** The cached account is the protocol's snapshot; no time means none. */
  predicate Coupled(m: Memory, w: Protocol.World) {
    w.cache == if m.accountAt == 0 then None else Some(m.account)
  }

  /**
   * A moment of a run: the exchange changes by itself, or the bot ticks. r is how the exchange moves during an account
   * refresh, meanwhile how it moves between the refresh and the action, id what it calls a new order.
   */
  datatype Moment =
    | Elsewhere(c: Protocol.Change)
    | Beat(t: TickInput, order: seq<Ledger.Fill>, r: Protocol.Refresh, meanwhile: seq<Protocol.Change>, id: int)

  /** The target, urgency and blocking with which a decision enters the order protocol. */
  function AsAct(
    cfg: AppConfig, exit: bool, d: RiskManager.Decision, noNewEntries: bool, m: Memory, t: TickInput, id: int)
    : Protocol.TickInput
  {
    var flat, hold := exit || (d.halt && d.flatten), noNewEntries || !d.allowed;
    var inp := PlannerInput(m, t, d.target);
    var plan := TickPlan(cfg.planner, exit, d, noNewEntries, inp);
    Protocol.TickInput(
      t.now, if flat then NO_TARGET else if hold then NO_TARGET.(quantity := m.account.Net()) else d.target,
      m.position, t.direct, t.recentVolume, flat, !flat && hold,
      if plan.Submit? && Sends(cfg, m, t, plan.intent) then t.outcome else Protocol.Refused, id,
      if cfg.paperVerified then t.cancelled else 0)
  }

  /** Every branch of a tick is a choice of the order protocol. */
  lemma PlansAreProtocolChoices(
    cfg: AppConfig, exit: bool, d: RiskManager.Decision, noNewEntries: bool, m: Memory, t: TickInput, id: int)
    ensures TickPlan(cfg.planner, exit, d, noNewEntries, PlannerInput(m, t, d.target))
         == Protocol.Chosen(cfg.planner, m.account, AsAct(cfg, exit, d, noNewEntries, m, t, id))
  {
    hide Decide, OrderGuard.Judge;
    var working := Filter(m.account.openOrders, InGroup(cfg.planner.groupId));
    assert Ids(working) == [] <==> working == [];
  }

  function Markets(cs: seq<Protocol.Change>): seq<Protocol.Event> {
    seq(|cs|, i requires 0 <= i < |cs| => Protocol.Market(cs[i]))
  }

  /** The protocol events of one tick: a due refresh, what happens meanwhile, and the decision. */
  ghost function EventsOf(s: Settings, m: Memory, b: Moment): seq<Protocol.Event>
    requires s.risk.Valid()
  {
    match b
    case Elsewhere(c) => [Protocol.Market(c)]
    case Beat(t, order, r, meanwhile, id) =>
      if RefreshFails(s.app, m, t) then Markets(meanwhile)
      else
        var a := WithAccount(s.app, m, t);
        (if AccountDue(s.app, m, t.now) then [Protocol.Read(r)] else []) + Markets(meanwhile)
        + [Protocol.Act(ActOf(s, a, t, order, id))]
  }

  ghost function ActOf(s: Settings, m: Memory, t: TickInput, order: seq<Ledger.Fill>, id: int): Protocol.TickInput
    requires s.risk.Valid()
  {
    AsAct(s.app, ExitOf(s, m, t) != Tracker.NoExit, DecisionOf(s, m, t, order), SignalOf(s, m, t).noNewEntries,
          Assessed(s, m, t, order), t, id)
  }

  ghost function MindAfter(s: Settings, m: Memory, b: Moment): Memory
    requires s.risk.Valid()
  {
    match b
    case Elsewhere(_) => m
    case Beat(t, order, _, _, _) => Ticked(s, m, t, order)
  }

  /** A due refresh that succeeds returns what the exchange answered; the clock is past its zero time. */
  predicate Answers(cfg: AppConfig, m: Memory, w: Protocol.World, b: Moment) {
    b.Beat? ==>
      && b.t.now != 0
      && (AccountDue(cfg, m, b.t.now) && b.t.fetched.Some? ==> b.t.fetched.value == Protocol.Snapshot(w, b.r))
  }

  /** Carrying out the plan changes the bot's snapshot as the protocol does. */
  lemma ExecutionIsAct(
    cfg: AppConfig, stops: Tracker.StopConfig, exit: bool, d: RiskManager.Decision, noNewEntries: bool, m: Memory,
    t: TickInput, id: int, w: Protocol.World, c: Memory)
    requires t.now != 0 && m.accountAt != 0 && w.cache == Some(m.account)
    requires c == m.(exitByStop := c.exitByStop, position := c.position)
    ensures var plan := TickPlan(cfg.planner, exit, d, noNewEntries, PlannerInput(m, t, d.target));
      var v := Protocol.ActOnce(cfg.planner, w, AsAct(cfg, exit, d, noNewEntries, m, t, id));
      && Coupled(Executed(cfg, stops, c, t, plan), v)
      && v.orders == OrdersAfter(w.orders, ActionOf(cfg, c, t, plan), t, id)
      && v.spot == w.spot && v.margin == w.margin
  {
    hide Decide, OrderGuard.Judge, Protocol.Chosen, TickPlan;
    var plan := TickPlan(cfg.planner, exit, d, noNewEntries, PlannerInput(m, t, d.target));
    PlansAreProtocolChoices(cfg, exit, d, noNewEntries, m, t, id);
    if plan.Cancel? {
      BatchesAreNotEmpty(cfg.planner, exit, d, noNewEntries, PlannerInput(m, t, d.target));
      FilterAll(w.orders, (o: OpenOrder) => o.id !in []);
    }
  }

  /** The exchange's orders after an action; a failed submission may have been placed. */
  function OrdersAfter(orders: seq<OpenOrder>, action: Action, t: TickInput, id: int): seq<OpenOrder> {
    match action
    case Nothing => orders
    case Cancelled(ids) => Filter(orders, (o: OpenOrder) => o.id !in ids)
    case Submitted(i) => orders + [PlannerFacts.Resting(i, id, t.now)]
    case Failed(i) => if t.outcome == Protocol.Lost then orders + [PlannerFacts.Resting(i, id, t.now)] else orders
  }

  lemma BatchesAreNotEmpty(cfg: Config, exit: bool, d: RiskManager.Decision, noNewEntries: bool, inp: Input)
    requires TickPlan(cfg, exit, d, noNewEntries, inp).Cancel?
    ensures TickPlan(cfg, exit, d, noNewEntries, inp).ids != []
  {
    hide Decide;
    var flat := inp.(target := NO_TARGET, urgent := true);
    if Decide(cfg, flat).Cancel? {
      PlannerFacts.CancelShape(cfg, flat);
    }
    if Decide(cfg, HoldInput(inp)).Cancel? {
      PlannerFacts.CancelShape(cfg, HoldInput(inp));
    }
    if Decide(cfg, inp.(target := d.target)).Cancel? {
      PlannerFacts.CancelShape(cfg, inp.(target := d.target));
    }
  }

  lemma {:induction false} RunsCompose(cfg: Config, w: Protocol.World, es: seq<Protocol.Event>, fs: seq<Protocol.Event>)
    ensures Protocol.Run(cfg, w, es + fs) == Protocol.Run(cfg, Protocol.Run(cfg, w, es), fs)
  {
    hide Protocol.Step;
    if fs == [] {
      assert es + fs == es;
    } else {
      assert (es + fs)[..|es + fs| - 1] == es + fs[..|fs| - 1];
      RunsCompose(cfg, w, es, fs[..|fs| - 1]);
    }
  }

  lemma {:induction false} MarketsRun(cfg: Config, w: Protocol.World, cs: seq<Protocol.Change>)
    ensures Protocol.Run(cfg, w, Markets(cs)) == Protocol.AfterChanges(w, cs)
    ensures Protocol.AfterChanges(w, cs).cache == w.cache
  {
    if cs != [] {
      var front := cs[..|cs| - 1];
      MarketsRun(cfg, w, front);
      assert Markets(cs)[..|cs| - 1] == Markets(front);
    }
  }

  lemma SingleStep(cfg: Config, w: Protocol.World, e: Protocol.Event)
    ensures Protocol.Run(cfg, w, [e]) == Protocol.Step(cfg, w, e)
  {
    hide Protocol.Step;
    assert [e][..0] == [];
  }

  /** The exchange just before a tick's action. */
  function BeforeAct(cfg: AppConfig, m: Memory, w: Protocol.World, b: Moment): Protocol.World
    requires b.Beat?
  {
    Protocol.AfterChanges(if AccountDue(cfg, m, b.t.now) then Protocol.Refreshed(w, b.r) else w, b.meanwhile)
  }

  lemma TickRuns(s: Settings, m: Memory, w: Protocol.World, b: Moment)
    requires s.risk.Valid() && b.Beat? && !RefreshFails(s.app, m, b.t)
    ensures Protocol.Run(s.app.planner, w, EventsOf(s, m, b))
         == Protocol.ActOnce(s.app.planner, BeforeAct(s.app, m, w, b),
                             ActOf(s, WithAccount(s.app, m, b.t), b.t, b.order, b.id))
  {
    hide ActOf, Protocol.ActOnce, Protocol.Refreshed;
    var cfg := s.app.planner;
    var read := if AccountDue(s.app, m, b.t.now) then [Protocol.Read(b.r)] else [];
    var act := Protocol.Act(ActOf(s, WithAccount(s.app, m, b.t), b.t, b.order, b.id));
    RunsCompose(cfg, w, read + Markets(b.meanwhile), [act]);
    RunsCompose(cfg, w, read, Markets(b.meanwhile));
    SingleStep(cfg, w, Protocol.Read(b.r));
    MarketsRun(cfg, Protocol.Run(cfg, w, read), b.meanwhile);
    SingleStep(cfg, BeforeAct(s.app, m, w, b), act);
  }

  /**
   * A moment of a coupled bot and exchange is a run of the protocol that keeps them coupled: the bot's cached account
   * is the protocol's snapshot, and the exchange's orders change exactly as the reported action says.
   */
  lemma MomentIsProtocolRun(s: Settings, m: Memory, w: Protocol.World, b: Moment)
    requires s.risk.Valid() && Coupled(m, w) && Answers(s.app, m, w, b)
    ensures Coupled(MindAfter(s, m, b), Protocol.Run(s.app.planner, w, EventsOf(s, m, b)))
    ensures b.Beat? && !RefreshFails(s.app, m, b.t) ==>
      Protocol.Run(s.app.planner, w, EventsOf(s, m, b)).orders
      == OrdersAfter(BeforeAct(s.app, m, w, b).orders, Reported(s, m, b.t, b.order).action, b.t, b.id)
  {
    hide Assessed, ExitOf, DecisionOf, SignalOf, NotedExit, TickPlan, AsAct, Executed, ActionOf, Protocol.ActOnce,
         Protocol.Snapshot, ClosedBy, OrdersAfter;
    match b
    case Elsewhere(c) => SingleStep(s.app.planner, w, Protocol.Market(c));
    case Beat(t, order, r, meanwhile, id) =>
      if RefreshFails(s.app, m, t) {
        MarketsRun(s.app.planner, w, meanwhile);
      } else {
        TickRuns(s, m, w, b);
        var a := WithAccount(s.app, m, t);
        var v := if AccountDue(s.app, m, t.now) then Protocol.Refreshed(w, r) else w;
        MarketsRun(s.app.planner, v, meanwhile);
        TickFacts.AssessedAccount(s, a, t, order);
        ExecutionIsAct(s.app, s.stops, ExitOf(s, a, t) != Tracker.NoExit, DecisionOf(s, a, t, order),
                       SignalOf(s, a, t).noNewEntries, Assessed(s, a, t, order), t, id, BeforeAct(s.app, m, w, b),
                       Planned(s, a, t, order));
      }
  }

  // ---- Runs of moments ------------------------------------------------------------------------------

  ghost function MindAfterAll(s: Settings, m: Memory, bs: seq<Moment>): Memory
    requires s.risk.Valid()
  {
    if bs == [] then m else MindAfter(s, MindAfterAll(s, m, bs[..|bs| - 1]), bs[|bs| - 1])
  }

  ghost function EventsOfAll(s: Settings, m: Memory, bs: seq<Moment>): seq<Protocol.Event>
    requires s.risk.Valid()
  {
    if bs == [] then []
    else
      var front := bs[..|bs| - 1];
      EventsOfAll(s, m, front) + EventsOf(s, MindAfterAll(s, m, front), bs[|bs| - 1])
  }

  ghost function WorldAfterAll(s: Settings, m: Memory, w: Protocol.World, bs: seq<Moment>): Protocol.World
    requires s.risk.Valid()
  {
    Protocol.Run(s.app.planner, w, EventsOfAll(s, m, bs))
  }

  /** Every refresh of the run answers from the exchange as it is then. */
  ghost predicate Consistent(s: Settings, m: Memory, w: Protocol.World, bs: seq<Moment>)
    requires s.risk.Valid()
  {
    bs == [] ||
    var front := bs[..|bs| - 1];
    Consistent(s, m, w, front)
    && Answers(s.app, MindAfterAll(s, m, front), WorldAfterAll(s, m, w, front), bs[|bs| - 1])
  }

  lemma {:induction false} RunsStayCoupled(s: Settings, m: Memory, w: Protocol.World, bs: seq<Moment>)
    requires s.risk.Valid() && Coupled(m, w) && Consistent(s, m, w, bs)
    ensures Coupled(MindAfterAll(s, m, bs), WorldAfterAll(s, m, w, bs))
  {
    hide Coupled, Answers, EventsOf, MindAfter, Protocol.Step;
    if bs != [] {
      var front := bs[..|bs| - 1];
      RunsStayCoupled(s, m, w, front);
      var n, v := MindAfterAll(s, m, front), WorldAfterAll(s, m, w, front);
      MomentIsProtocolRun(s, n, v, bs[|bs| - 1]);
      RunsCompose(s.app.planner, w, EventsOfAll(s, m, front), EventsOf(s, n, bs[|bs| - 1]));
    }
  }

  // ---- Safety of whole runs -------------------------------------------------------------------------

  /** The tick takes the branch that pursues its decision's target. */
  predicate Wants(r: Report) {
    !r.exit && r.decision.allowed && !r.signal.noNewEntries
  }

  /** The largest of a spot holding and the allowed targets of a run. */
  ghost function HighestWanted(s: Settings, m: Memory, bs: seq<Moment>, spot: real): real
    requires s.risk.Valid()
  {
    if bs == [] then spot
    else
      var front, b := bs[..|bs| - 1], bs[|bs| - 1];
      var so := HighestWanted(s, m, front, spot);
      if b.Beat? && Wants(Reported(s, MindAfterAll(s, m, front), b.t, b.order))
      then Numbers.Max(so, Reported(s, MindAfterAll(s, m, front), b.t, b.order).decision.target.quantity) else so
  }

  /** The smallest of a margin position and the allowed targets of a run. */
  ghost function LowestWanted(s: Settings, m: Memory, bs: seq<Moment>, margin: real): real
    requires s.risk.Valid()
  {
    if bs == [] then margin
    else
      var front, b := bs[..|bs| - 1], bs[|bs| - 1];
      var so := LowestWanted(s, m, front, margin);
      if b.Beat? && Wants(Reported(s, MindAfterAll(s, m, front), b.t, b.order))
      then Numbers.Min(so, Reported(s, MindAfterAll(s, m, front), b.t, b.order).decision.target.quantity) else so
  }

  lemma {:induction false} ChangesPursueNothing(w: Protocol.World, cs: seq<Protocol.Change>)
    ensures Protocol.AfterChanges(w, cs).high == w.high && Protocol.AfterChanges(w, cs).low == w.low
    ensures Protocol.AfterChanges(w, cs).cache == w.cache
  {
    if cs != [] {
      ChangesPursueNothing(w, cs[..|cs| - 1]);
    }
  }

  /** On holdings the bot itself can take, what a decision pursues is its allowed target or nothing. */
  lemma ActPursuesAllowed(
    cfg: AppConfig, exit: bool, d: RiskManager.Decision, noNewEntries: bool, m: Memory, t: TickInput, id: int,
    w: Protocol.World)
    requires cfg.planner.Scaled() && w.cache == Some(m.account) && m.account.spot >= 0.0 && m.account.margin <= 0.0
    ensures var v := Protocol.ActOnce(cfg.planner, w, AsAct(cfg, exit, d, noNewEntries, m, t, id));
      if !exit && d.allowed && !noNewEntries
      then v.high <= Numbers.Max(w.high, d.target.quantity) && v.low >= Numbers.Min(w.low, d.target.quantity)
      else v.high == w.high && v.low == w.low
  {
    hide Decide, OrderGuard.Judge, Protocol.Chosen, TickPlan, TickFacts.HoldMayOpen;
    PlansAreProtocolChoices(cfg, exit, d, noNewEntries, m, t, id);
    TickFacts.SupportedHoldingsLeaveNoGap(cfg.planner, m.account);
    TickFacts.PlanOpensOnlyTheTarget(cfg.planner, exit, d, noNewEntries, PlannerInput(m, t, d.target));
  }

  lemma MomentPursuesAllowed(s: Settings, m: Memory, w: Protocol.World, b: Moment)
    requires s.app.planner.Scaled() && s.risk.Valid() && Coupled(m, w) && Answers(s.app, m, w, b)
    requires Protocol.CacheSigned(w) && Protocol.Safe(s.app.planner, w) && Protocol.BotOrders(s.app.planner, w.orders)
    ensures var v := Protocol.Run(s.app.planner, w, EventsOf(s, m, b));
      if b.Beat? && Wants(Reported(s, m, b.t, b.order))
      then var q := Reported(s, m, b.t, b.order).decision.target.quantity;
        v.high <= Numbers.Max(w.high, q) && v.low >= Numbers.Min(w.low, q)
      else v.high == w.high && v.low == w.low
  {
    hide Assessed, ExitOf, DecisionOf, SignalOf, NotedExit, TickPlan, AsAct, Executed, ActionOf, Protocol.ActOnce,
         Protocol.Snapshot, ClosedBy, OrdersAfter, Protocol.Safe, Protocol.BotOrders;
    match b
    case Elsewhere(c) =>
      SingleStep(s.app.planner, w, Protocol.Market(c));
    case Beat(t, order, r, meanwhile, id) =>
      if RefreshFails(s.app, m, t) {
        MarketsRun(s.app.planner, w, meanwhile);
        ChangesPursueNothing(w, meanwhile);
      } else {
        TickRuns(s, m, w, b);
        var a := WithAccount(s.app, m, t);
        var v := if AccountDue(s.app, m, t.now) then Protocol.Refreshed(w, r) else w;
        Protocol.SnapshotIsSigned(s.app.planner, w, r);
        ChangesPursueNothing(w, r.afterFirst);
        ChangesPursueNothing(Protocol.AfterChanges(w, r.afterFirst), r.afterSecond);
        ChangesPursueNothing(v, meanwhile);
        TickFacts.AssessedAccount(s, a, t, order);
        ActPursuesAllowed(s.app, ExitOf(s, a, t) != Tracker.NoExit, DecisionOf(s, a, t, order),
                          SignalOf(s, a, t).noNewEntries, Assessed(s, a, t, order), t, id, BeforeAct(s.app, m, w, b));
      }
  }

  lemma {:induction false} CarefulPrefix(
    cfg: Config, w: Protocol.World, es: seq<Protocol.Event>, fs: seq<Protocol.Event>)
    requires Protocol.Careful(cfg, w, es + fs)
    ensures Protocol.Careful(cfg, w, es)
  {
    hide Protocol.Trusted;
    if fs == [] {
      assert es + fs == es;
    } else {
      assert (es + fs)[..|es + fs| - 1] == es + fs[..|fs| - 1];
      CarefulPrefix(cfg, w, es, fs[..|fs| - 1]);
    }
  }

  /** A run pursues nothing beyond what is held at its start and its allowed targets. */
  lemma {:induction false} RunsPursueAllowed(s: Settings, m: Memory, w: Protocol.World, bs: seq<Moment>)
    requires s.app.planner.Scaled() && s.risk.Valid() && Coupled(m, w) && Consistent(s, m, w, bs)
    requires Protocol.Invariant(s.app.planner, w, true) && Protocol.CacheSigned(w)
    requires Protocol.Careful(s.app.planner, w, EventsOfAll(s, m, bs))
    ensures var v := WorldAfterAll(s, m, w, bs);
      v.high <= HighestWanted(s, m, bs, w.high) && v.low >= LowestWanted(s, m, bs, w.low)
  {
    hide Coupled, Answers, EventsOf, MindAfter, Protocol.Step, Protocol.Invariant, Protocol.CacheSigned,
         Protocol.Careful, Protocol.Trusted, Wants, Reported;
    if bs != [] {
      var front, cfg := bs[..|bs| - 1], s.app.planner;
      var es, n, v := EventsOfAll(s, m, front), MindAfterAll(s, m, front), WorldAfterAll(s, m, w, front);
      CarefulPrefix(cfg, w, es, EventsOf(s, n, bs[|bs| - 1]));
      RunsPursueAllowed(s, m, w, front);
      RunsStayCoupled(s, m, w, front);
      Protocol.RunKeepsInvariant(cfg, w, es);
      Protocol.InvariantIsSafe(cfg, v, Protocol.Trusted(cfg, w, es));
      Protocol.SnapshotsAreSigned(cfg, w, es);
      MomentPursuesAllowed(s, n, v, bs[|bs| - 1]);
      RunsCompose(cfg, w, es, EventsOf(s, n, bs[|bs| - 1]));
    }
  }

  /**
   * Safety of the bot: from a fresh start, whatever the markets, signals, fills, equity, halts and exchange answers, a
   * run of whole ticks keeps the venues exclusive and never has two working orders, and its holdings and pending
   * entries stay within what was held at the start and the targets that were allowed, as long as its decisions are
   * taken on snapshots that can be trusted.
   */
  lemma BotRunsAreSafe(s: Settings, m: Memory, w: Protocol.World, bs: seq<Moment>)
    requires s.app.planner.Scaled() && s.risk.Valid() && m.accountAt == 0
    requires Protocol.Initial(s.app.planner, w) && Consistent(s, m, w, bs)
    requires Protocol.Careful(s.app.planner, w, EventsOfAll(s, m, bs))
    ensures var v := WorldAfterAll(s, m, w, bs);
      && Protocol.Safe(s.app.planner, v) && Coupled(MindAfterAll(s, m, bs), v)
      && v.spot + Protocol.Pending(v.orders, Spot) <= HighestWanted(s, m, bs, w.spot) + Numbers.SLACK
      && v.margin - Protocol.Pending(v.orders, Margin) >= LowestWanted(s, m, bs, w.margin) - Numbers.SLACK
  {
    RunsStayCoupled(s, m, w, bs);
    Protocol.EveryRunIsSafe(s.app.planner, w, EventsOfAll(s, m, bs));
    Protocol.InitialIsInvariant(s.app.planner, w);
    hide Protocol.Careful, Consistent, MindAfterAll, EventsOfAll, HighestWanted, LowestWanted;
    RunsPursueAllowed(s, m, w, bs);
  }

  /** Every due refresh of the run is calm, and no response to a submission is lost. */
  ghost predicate CalmMoments(s: Settings, m: Memory, w: Protocol.World, bs: seq<Moment>)
    requires s.risk.Valid()
  {
    bs == [] ||
    var front, b := bs[..|bs| - 1], bs[|bs| - 1];
    && CalmMoments(s, m, w, front)
    && (b.Beat? && !RefreshFails(s.app, MindAfterAll(s, m, front), b.t) ==>
          && b.t.outcome != Protocol.Lost
          && (AccountDue(s.app, MindAfterAll(s, m, front), b.t.now) ==>
                Protocol.Calm(WorldAfterAll(s, m, w, front), b.r)))
  }

  lemma CalmRunsCompose(cfg: Config, w: Protocol.World, es: seq<Protocol.Event>, fs: seq<Protocol.Event>)
    requires SnapshotLimits.CalmRun(cfg, w, es) && SnapshotLimits.CalmRun(cfg, Protocol.Run(cfg, w, es), fs)
    ensures SnapshotLimits.CalmRun(cfg, w, es + fs)
  {
    hide Protocol.Calm, Protocol.Run;
    forall k | 0 <= k < |es + fs|
      ensures match (es + fs)[k]
        case Read(r) => Protocol.Calm(Protocol.Run(cfg, w, (es + fs)[..k]), r)
        case Act(t) => t.outcome != Protocol.Lost
        case Market(_) => true
    {
      if k < |es| {
        assert (es + fs)[..k] == es[..k] && (es + fs)[k] == es[k];
      } else {
        assert (es + fs)[..k] == es + fs[..k - |es|] && (es + fs)[k] == fs[k - |es|];
        RunsCompose(cfg, w, es, fs[..k - |es|]);
      }
    }
  }

  lemma CalmMoment(s: Settings, m: Memory, w: Protocol.World, b: Moment)
    requires s.risk.Valid()
    requires b.Beat? && !RefreshFails(s.app, m, b.t) ==>
      b.t.outcome != Protocol.Lost && (AccountDue(s.app, m, b.t.now) ==> Protocol.Calm(w, b.r))
    ensures SnapshotLimits.CalmRun(s.app.planner, w, EventsOf(s, m, b))
  {
    hide Protocol.Calm, Protocol.Step, ExitOf, DecisionOf, SignalOf, Assessed, TickPlan, OrderGuard.Judge;
    if b.Beat? && !RefreshFails(s.app, m, b.t) && AccountDue(s.app, m, b.t.now) {
      assert EventsOf(s, m, b)[..0] == [] && EventsOf(s, m, b)[0] == Protocol.Read(b.r);
    }
  }

  lemma {:induction false} CalmMomentsAreCalm(s: Settings, m: Memory, w: Protocol.World, bs: seq<Moment>)
    requires s.risk.Valid() && CalmMoments(s, m, w, bs)
    ensures SnapshotLimits.CalmRun(s.app.planner, w, EventsOfAll(s, m, bs))
  {
    hide Protocol.Calm, SnapshotLimits.CalmRun, EventsOf, MindAfter, Protocol.Step;
    if bs != [] {
      var front := bs[..|bs| - 1];
      CalmMomentsAreCalm(s, m, w, front);
      CalmMoment(s, MindAfterAll(s, m, front), WorldAfterAll(s, m, w, front), bs[|bs| - 1]);
      CalmRunsCompose(s.app.planner, w, EventsOfAll(s, m, front),
                      EventsOf(s, MindAfterAll(s, m, front), bs[|bs| - 1]));
    } else {
      NothingIsCalm(s.app.planner, w);
    }
  }

  lemma NothingIsCalm(cfg: Config, w: Protocol.World)
    ensures SnapshotLimits.CalmRun(cfg, w, [])
  {
  }

  /** In particular, runs of ticks whose due refreshes are calm and whose responses all arrive are safe. */
  lemma CalmBotRunsAreSafe(s: Settings, m: Memory, w: Protocol.World, bs: seq<Moment>)
    requires s.app.planner.Scaled() && s.risk.Valid() && m.accountAt == 0
    requires Protocol.Initial(s.app.planner, w) && Consistent(s, m, w, bs) && CalmMoments(s, m, w, bs)
    ensures var v := WorldAfterAll(s, m, w, bs);
      && Protocol.Safe(s.app.planner, v)
      && v.spot + Protocol.Pending(v.orders, Spot) <= HighestWanted(s, m, bs, w.spot) + Numbers.SLACK
      && v.margin - Protocol.Pending(v.orders, Margin) >= LowestWanted(s, m, bs, w.margin) - Numbers.SLACK
  {
    hide Protocol.Safe, Protocol.Careful, SnapshotLimits.CalmRun, Consistent, CalmMoments, HighestWanted, LowestWanted;
    CalmMomentsAreCalm(s, m, w, bs);
    SnapshotLimits.CalmRunsAreCareful(s.app.planner, w, EventsOfAll(s, m, bs));
    BotRunsAreSafe(s, m, w, bs);
  }

  // ---- Pacing ---------------------------------------------------------------------------------------

  /** The report of the k-th moment, a tick. */
  ghost function ReportAt(s: Settings, m: Memory, bs: seq<Moment>, k: nat): Report
    requires s.risk.Valid() && k < |bs| && bs[k].Beat?
  {
    Reported(s, MindAfterAll(s, m, bs[..k]), bs[k].t, bs[k].order)
  }

  ghost predicate SubmitsAt(s: Settings, m: Memory, bs: seq<Moment>, k: nat)
    requires s.risk.Valid()
  {
    k < |bs| && bs[k].Beat? && ReportAt(s, m, bs, k).action.Submitted?
  }

  /** The clock never runs backwards and never shows its zero time. */
  predicate Clocked(bs: seq<Moment>) {
    && (forall k :: 0 <= k < |bs| && bs[k].Beat? ==> bs[k].t.now > 0)
    && (forall j, k :: 0 <= j < k < |bs| && bs[j].Beat? && bs[k].Beat? ==> bs[j].t.now <= bs[k].t.now)
  }

  /** An acknowledged submission comes at least the minimum interval after the last one, and becomes the last one. */
  lemma TickIsPaced(s: Settings, m: Memory, t: TickInput, order: seq<Ledger.Fill>)
    requires s.risk.Valid()
    ensures var r, n := Reported(s, m, t, order), Ticked(s, m, t, order);
      if r.action.Submitted?
      then n.lastSubmit == t.now && (m.lastSubmit == 0 || t.now - m.lastSubmit >= s.app.planner.minSubmitInterval)
      else n.lastSubmit == m.lastSubmit
  {
    hide Assessed, ExitOf, DecisionOf, SignalOf, NotedExit, TickPlan, OrderGuard.Judge, ClosedBy;
    if !RefreshFails(s.app, m, t) {
      TickFacts.AssessedAccount(s, WithAccount(s.app, m, t), t, order);
    }
  }

  lemma {:induction false} LastSubmitIsRecent(s: Settings, m: Memory, bs: seq<Moment>, j: nat)
    requires s.risk.Valid() && Clocked(bs) && SubmitsAt(s, m, bs, j)
    ensures MindAfterAll(s, m, bs).lastSubmit >= bs[j].t.now > 0
  {
    hide Reported, Ticked;
    var front, last := bs[..|bs| - 1], bs[|bs| - 1];
    assert front == bs[..|bs| - 1];
    if last.Beat? {
      TickIsPaced(s, MindAfterAll(s, m, front), last.t, last.order);
    }
    if j < |front| {
      assert bs[..j] == front[..j];
      LastSubmitIsRecent(s, m, front, j);
    }
  }

  /** Pacing: over every run, two acknowledged submissions are at least the minimum interval apart. */
  lemma SubmissionsAreSpaced(s: Settings, m: Memory, bs: seq<Moment>, j: nat, k: nat)
    requires s.risk.Valid() && Clocked(bs) && j < k && SubmitsAt(s, m, bs, j) && SubmitsAt(s, m, bs, k)
    ensures bs[k].t.now - bs[j].t.now >= s.app.planner.minSubmitInterval
  {
    hide Reported, Ticked;
    var front := bs[..k];
    assert bs[..j] == front[..j];
    assert SubmitsAt(s, m, front, j);
    LastSubmitIsRecent(s, m, front, j);
    TickIsPaced(s, MindAfterAll(s, m, front), bs[k].t, bs[k].order);
  }

  // ---- The halt -------------------------------------------------------------------------------------

  /**
   * Once the hard halt is latched, no later tick of any run plans an opening order on an account without margin long
   * and negative spot, whatever branch it takes and however its submission fares.
   */
  lemma {:induction false} HaltHoldsForever(s: Settings, m: Memory, bs: seq<Moment>)
    requires s.app.planner.Scaled() && s.risk.Valid() && m.risk.halted
    ensures MindAfterAll(s, m, bs).risk.halted
    ensures forall k :: 0 <= k < |bs| && bs[k].Beat? ==>
      var a := MindAfterAll(s, m, bs[..k + 1]).account;
      a.spot >= 0.0 && a.margin <= 0.0 ==> !OpeningPlan(ReportAt(s, m, bs, k).plan)
  {
    hide Reported, Ticked, TickFacts.HoldMayOpen, OpeningPlan;
    if bs != [] {
      var front, last := bs[..|bs| - 1], bs[|bs| - 1];
      HaltHoldsForever(s, m, front);
      if last.Beat? {
        TickFacts.HaltedTicksNeverOpen(s, MindAfterAll(s, m, front), last.t, last.order);
        var a := MindAfterAll(s, m, bs).account;
        if a.spot >= 0.0 && a.margin <= 0.0 {
          TickFacts.SupportedHoldingsLeaveNoGap(s.app.planner, a);
        }
      }
      forall k | 0 <= k < |bs| && bs[k].Beat?
        ensures var a := MindAfterAll(s, m, bs[..k + 1]).account;
          a.spot >= 0.0 && a.margin <= 0.0 ==> !OpeningPlan(ReportAt(s, m, bs, k).plan)
      {
        if k < |front| {
          assert bs[..k + 1] == front[..k + 1] && bs[..k] == front[..k];
        } else {
          assert bs[..k + 1] == bs && bs[..k] == front;
        }
      }
    }
  }

  // ---- Re-entry -------------------------------------------------------------------------------------

  function StopMarks(closed: seq<Ledger.OpenTrade>): seq<Strategy.Event> {
    if closed == [] then []
    else
      var r := closed[|closed| - 1].record;
      StopMarks(closed[..|closed| - 1])
      + if r.byStop then [Strategy.Stopped(if r.long then 1.0 else -1.0, r.exitTime)] else []
  }

  /** What a tick does to the strategy: a stop exit, the question, and the trades its fills closed by a stop. */
  ghost function BeforeQuestion(s: Settings, m: Memory, t: TickInput): seq<Strategy.Event> {
    if ExitOf(s, m, t) == Tracker.StopHit then [Strategy.Stopped(Reconciled(s, m, t).position.quantity, t.now)] else []
  }

  ghost function StrategyEvents(s: Settings, m: Memory, b: Moment): seq<Strategy.Event> {
    match b
    case Elsewhere(_) => []
    case Beat(t, order, _, _, _) =>
      if RefreshFails(s.app, m, t) then []
      else
        var a := WithAccount(s.app, m, t);
        BeforeQuestion(s, a, t) + [Strategy.Asked(Question(s, a, t))] + StopMarks(ClosedBy(s, a, t, order))
  }

  lemma {:induction false} StrategyRunsCompose(
    cfg: Strategy.StrategyConfig, b: Strategy.Blocks, es: seq<Strategy.Event>, fs: seq<Strategy.Event>)
    ensures Strategy.After(cfg, b, es + fs) == Strategy.After(cfg, Strategy.After(cfg, b, es), fs)
  {
    hide Strategy.Next;
    if fs == [] {
      assert es + fs == es;
    } else {
      assert (es + fs)[..|es + fs| - 1] == es + fs[..|fs| - 1];
      StrategyRunsCompose(cfg, b, es, fs[..|fs| - 1]);
    }
  }

  lemma OneEvent(cfg: Strategy.StrategyConfig, b: Strategy.Blocks, e: Strategy.Event)
    ensures Strategy.After(cfg, b, [e]) == Strategy.Next(cfg, b, e)
    ensures Strategy.After(cfg, b, []) == b
  {
    hide Strategy.Next;
    assert [e][..0] == [];
  }

  lemma {:induction false} MarksAreEvents(
    cfg: Strategy.StrategyConfig, b: Strategy.Blocks, closed: seq<Ledger.OpenTrade>)
    ensures Strategy.After(cfg, b, StopMarks(closed)) == MarkAll(b, closed)
  {
    if closed != [] {
      var front, r := closed[..|closed| - 1], closed[|closed| - 1].record;
      MarksAreEvents(cfg, b, front);
      var e := Strategy.Stopped(if r.long then 1.0 else -1.0, r.exitTime);
      StrategyRunsCompose(cfg, b, StopMarks(front), [e]);
      OneEvent(cfg, MarkAll(b, front), e);
      assert StopMarks(front) + [] == StopMarks(front);
    }
  }

  lemma AbortedTick(s: Settings, m: Memory, t: TickInput, order: seq<Ledger.Fill>)
    requires s.risk.Valid() && RefreshFails(s.app, m, t)
    ensures Ticked(s, m, t, order) == m
  {
  }

  lemma NoTradesNoMarks(b: Strategy.Blocks)
    ensures MarkAll(b, []) == b
  {
  }

  /** A tick moves the strategy's blocks exactly as these events do, and its signal answers the question among them. */
  lemma TickIsStrategyRun(s: Settings, m: Memory, b: Moment)
    requires s.risk.Valid()
    ensures MindAfter(s, m, b).blocks == Strategy.After(s.strategy, m.blocks, StrategyEvents(s, m, b))
    ensures b.Beat? && !RefreshFails(s.app, m, b.t) ==>
      var a := WithAccount(s.app, m, b.t);
      Reported(s, m, b.t, b.order).signal
      == Strategy.Decided(s.strategy, Strategy.After(s.strategy, m.blocks, BeforeQuestion(s, a, b.t)),
                          Question(s, a, b.t))
  {
    hide Strategy.BlocksAfter, Strategy.Decided, Strategy.Marked, Ledger.TakeAll, Tracker.Announced, Tracker.Observed,
         RiskManager.Observed, Exposure, Ledger.Marked, Ticked, PlanOf, DecisionOf, ActionOf, Planned, MarkAll;
    if b.Beat? && !RefreshFails(s.app, m, b.t) {
      var a := WithAccount(s.app, m, b.t);
      var before, closed := BeforeQuestion(s, a, b.t), ClosedBy(s, a, b.t, b.order);
      var q := Strategy.Asked(Question(s, a, b.t));
      StrategyRunsCompose(s.strategy, m.blocks, before + [q], StopMarks(closed));
      StrategyRunsCompose(s.strategy, m.blocks, before, [q]);
      OneEvent(s.strategy, m.blocks, Strategy.Stopped(Reconciled(s, a, b.t).position.quantity, b.t.now));
      OneEvent(s.strategy, Strategy.After(s.strategy, m.blocks, before), q);
      MarksAreEvents(s.strategy, Answered(s, Reconciled(s, a, b.t), b.t).blocks, closed);
      TickFacts.TickKeepsAssessment(s, m, b.t, b.order);
      NoTradesNoMarks(Answered(s, Reconciled(s, a, b.t), b.t).blocks);
    } else if b.Beat? {
      AbortedTick(s, m, b.t, b.order);
    }
  }

  ghost function StrategyEventsOfAll(s: Settings, m: Memory, bs: seq<Moment>): seq<Strategy.Event>
    requires s.risk.Valid()
  {
    if bs == [] then []
    else
      var front := bs[..|bs| - 1];
      StrategyEventsOfAll(s, m, front) + StrategyEvents(s, MindAfterAll(s, m, front), bs[|bs| - 1])
  }

  lemma {:induction false} RunIsStrategyRun(s: Settings, m: Memory, bs: seq<Moment>)
    requires s.risk.Valid()
    ensures MindAfterAll(s, m, bs).blocks == Strategy.After(s.strategy, m.blocks, StrategyEventsOfAll(s, m, bs))
  {
    hide MindAfter, StrategyEvents, Strategy.Next;
    if bs != [] {
      var front := bs[..|bs| - 1];
      RunIsStrategyRun(s, m, front);
      TickIsStrategyRun(s, MindAfterAll(s, m, front), bs[|bs| - 1]);
      StrategyRunsCompose(s.strategy, m.blocks, StrategyEventsOfAll(s, m, front),
                          StrategyEvents(s, MindAfterAll(s, m, front), bs[|bs| - 1]));
    } else {
      OneEvent(s.strategy, m.blocks, Strategy.Stopped(0.0, 0));
    }
  }

  predicate OpensOn(long: bool, p: Plan) {
    OpeningPlan(p) && p.intent.venue == if long then Spot else Margin
  }

  /** Without exposure on a side in its signal, a tick plans no order that opens it, on holdings the bot can take. */
  lemma NoSignalNoEntry(s: Settings, m: Memory, t: TickInput, order: seq<Ledger.Fill>, long: bool)
    requires s.app.planner.Scaled() && s.risk.Valid() && !RefreshFails(s.app, m, t)
    requires !TickFacts.HoldMayOpen(s.app.planner, WithAccount(s.app, m, t).account)
    requires !Strategy.On(long, Reported(s, m, t, order).signal.desiredExposure)
    ensures !OpensOn(long, Reported(s, m, t, order).plan)
  {
    hide Assessed, ExitOf, SignalOf, ClosedBy, RiskManager.Evaluated, TickFacts.HoldMayOpen, Decide, Executed,
         NotedExit, OrderGuard.Judge;
    var a := WithAccount(s.app, m, t);
    var b, r := Assessed(s, a, t, order), Reported(s, m, t, order);
    TickFacts.AssessedAccount(s, a, t, order);
    var inp := PlannerInput(b, t, r.decision.target);
    TickFacts.PlanOpensOnlyTheTarget(s.app.planner, r.exit, r.decision, r.signal.noNewEntries, inp);
    if r.decision.allowed && !r.signal.noNewEntries {
      TickFacts.TargetFollowsSignal(s.risk, b.risk, ReadingOf(s, b, t, r.signal));
    }
  }

  /** Without a net holding on a side, the question's exposure is not on it either. */
  lemma NoHoldingNoExposure(a: Account, fair: real, cap: real, long: bool)
    requires cap > 0.0 && !Strategy.On(long, a.Net())
    ensures !Strategy.On(long, Exposure(a, fair, cap))
  {
    if fair > 0.0 {
      TickFacts.ExposureIsRelativeValue(a, fair, cap);
    }
  }

  /**
   * No re-entry after a stop-out, over whole ticks: from a blocked side on, and until one tick's question satisfies
   * both the cooldown and the thesis reset, no tick plans an order that opens the stopped side while the account holds
   * nothing on it, and neither a margin long nor a negative spot balance.
   */
  lemma BlockedSideIsNotReopened(
    s: Settings, src: Reentry.Sources, m: Memory, bs: seq<Moment>, b: Moment, long: bool)
    requires s.app.planner.Scaled() && s.risk.Valid()
    requires m.blocks.At(long) != 0 && b.Beat? && !RefreshFails(s.app, MindAfterAll(s, m, bs), b.t)
    requires var n := MindAfterAll(s, m, bs);
      var a := WithAccount(s.app, n, b.t);
      && Reentry.CapsKeepShut(s.strategy, src, long, Question(s, a, b.t))
      && Strategy.NeverReleased(
           s.strategy, m.blocks,
           StrategyEventsOfAll(s, m, bs) + BeforeQuestion(s, a, b.t) + [Strategy.Asked(Question(s, a, b.t))], long)
      && a.account.spot >= 0.0 && a.account.margin <= 0.0 && !Strategy.On(long, a.account.Net())
    ensures !OpensOn(long, Reported(s, MindAfterAll(s, m, bs), b.t, b.order).plan)
  {
    hide Reported, StrategyEvents, Strategy.Next, Strategy.Decided, TickFacts.HoldMayOpen, MindAfter, OpensOn,
         BeforeQuestion, Strategy.NeverReleased, Reentry.CapsKeepShut, Exposure;
    var n := MindAfterAll(s, m, bs);
    var a := WithAccount(s.app, n, b.t);
    var es := StrategyEventsOfAll(s, m, bs) + BeforeQuestion(s, a, b.t);
    RunIsStrategyRun(s, m, bs);
    TickIsStrategyRun(s, n, b);
    StrategyRunsCompose(s.strategy, m.blocks, StrategyEventsOfAll(s, m, bs), BeforeQuestion(s, a, b.t));
    NoHoldingNoExposure(a.account, b.t.fair.price, s.risk.capitalBase, long);
    TickFacts.SupportedHoldingsLeaveNoGap(s.app.planner, a.account);
    Reentry.NoReentryBeforeRelease(s.strategy, src, m.blocks, es, Question(s, a, b.t), long);
    NoSignalNoEntry(s, n, b.t, b.order, long);
  }

  // ---- Re-entry without a range -------------------------------------------------------------------

  /** A tick after the clock's zero time, with a plausible reading of a regime that lifts no block of this side. */
  predicate LiftsNothing(s: Settings, src: Reentry.Sources, m: Memory, b: Moment, long: bool) {
    b.Beat? ==>
      && b.t.now != 0 && (forall f :: f in b.order ==> f.time != 0)
      && Reentry.Plausible(s.strategy, src, Question(s, m, b.t))
      && !Reentry.Liftable(s.strategy, src, long, b.t.regime)
  }

  /** A trade is closed at the time of one of the fills. */
  lemma {:induction false} ClosedAtFills(
    l: Ledger.State, fills: seq<Ledger.Fill>, ctx: Ledger.Context, byStop: bool)
    ensures forall o :: o in Ledger.TakeAll(l, fills, ctx, byStop).closed ==>
      exists f :: f in fills && f.time == o.record.exitTime
  {
    hide Ledger.Apply;
    if fills != [] {
      var front, last := fills[..|fills| - 1], fills[|fills| - 1];
      var r := Ledger.TakeAll(l, front, ctx, byStop);
      ClosedAtFills(l, front, ctx, byStop);
      ClosedAtFill(r.state, last, ctx, byStop);
      forall o | o in Ledger.TakeAll(l, fills, ctx, byStop).closed
        ensures exists f :: f in fills && f.time == o.record.exitTime
      {
        if o in r.closed {
          var f :| f in front && f.time == o.record.exitTime;
          assert f in fills;
        } else {
          assert o in Ledger.Take(r.state, last, ctx, byStop).closed && last in fills;
        }
      }
    }
  }

  lemma ClosedAtFill(l: Ledger.State, f: Ledger.Fill, ctx: Ledger.Context, byStop: bool)
    ensures forall o :: o in Ledger.Take(l, f, ctx, byStop).closed ==> o.record.exitTime == f.time
  {
  }

  lemma {:induction false} MarksAreTimed(closed: seq<Ledger.OpenTrade>, e: Strategy.Event)
    requires (forall o :: o in closed ==> o.record.exitTime != 0) && e in StopMarks(closed)
    ensures e.Stopped? && e.at != 0
  {
    if closed != [] {
      var front := closed[..|closed| - 1];
      if e in StopMarks(front) {
        MarksAreTimed(front, e);
      } else {
        assert closed[|closed| - 1] in closed;
      }
    }
  }

  /** The events of such a tick lift nothing. */
  lemma TickLiftsNothing(s: Settings, src: Reentry.Sources, m: Memory, b: Moment, long: bool)
    requires LiftsNothing(s, src, m, b, long)
    ensures forall e :: e in StrategyEvents(s, m, b) ==> Reentry.LiftsNothing(s.strategy, src, long, e)
    ensures b.Beat? ==> var a := WithAccount(s.app, m, b.t);
      forall e :: e in BeforeQuestion(s, a, b.t) + [Strategy.Asked(Question(s, a, b.t))] ==>
        Reentry.LiftsNothing(s.strategy, src, long, e)
  {
    hide Reentry.Liftable, ExitOf, Reconciled, Exposure, Ledger.TakeAll, Answered;
    if b.Beat? {
      var a := WithAccount(s.app, m, b.t);
      var c := Answered(s, Reconciled(s, a, b.t), b.t);
      ClosedAtFills(c.ledger, b.order, ContextOf(s.app, c, b.t), c.exitByStop);
      forall e | e in StopMarks(ClosedBy(s, a, b.t, b.order)) ensures e.Stopped? && e.at != 0 {
        MarksAreTimed(ClosedBy(s, a, b.t, b.order), e);
      }
    }
  }

  lemma {:induction false} RunLiftsNothing(
    s: Settings, src: Reentry.Sources, m: Memory, bs: seq<Moment>, long: bool)
    requires s.risk.Valid()
    requires forall k :: 0 <= k < |bs| ==> LiftsNothing(s, src, m, bs[k], long)
    ensures forall e :: e in StrategyEventsOfAll(s, m, bs) ==> Reentry.LiftsNothing(s.strategy, src, long, e)
  {
    hide Reentry.LiftsNothing, StrategyEvents, MindAfter, LiftsNothing;
    if bs != [] {
      var front := bs[..|bs| - 1];
      RunLiftsNothing(s, src, m, front, long);
      assert LiftsNothing(s, src, m, bs[|bs| - 1], long);
      SameReading(s, src, m, MindAfterAll(s, m, front), bs[|bs| - 1], long);
      TickLiftsNothing(s, src, MindAfterAll(s, m, front), bs[|bs| - 1], long);
    }
  }

  /** Whether a reading is plausible does not depend on the bot's memory. */
  lemma SameReading(s: Settings, src: Reentry.Sources, m: Memory, n: Memory, b: Moment, long: bool)
    requires LiftsNothing(s, src, m, b, long)
    ensures LiftsNothing(s, src, n, b, long)
  {
    hide Reentry.Liftable, Exposure;
  }

  /**
   * Without a tick in a regime that can lift it, a block outlasts every cooldown and every reset of the thesis: no tick
   * plans an order that opens the stopped side while the account holds nothing on it.
   */
  lemma BlockOutlastsTicks(s: Settings, src: Reentry.Sources, m: Memory, bs: seq<Moment>, b: Moment, long: bool)
    requires s.app.planner.Scaled() && s.risk.Valid() && src.Valid() && s.strategy.CapsAreSized(!long)
    requires m.blocks.At(long) != 0 && b.Beat? && !RefreshFails(s.app, MindAfterAll(s, m, bs), b.t)
    requires forall k :: 0 <= k <= |bs| ==> LiftsNothing(s, src, m, (bs + [b])[k], long)
    requires var a := WithAccount(s.app, MindAfterAll(s, m, bs), b.t).account;
      a.spot >= 0.0 && a.margin <= 0.0 && !Strategy.On(long, a.Net())
    ensures !OpensOn(long, Reported(s, MindAfterAll(s, m, bs), b.t, b.order).plan)
  {
    hide Reported, StrategyEvents, Strategy.Next, Strategy.Decided, TickFacts.HoldMayOpen, MindAfter, OpensOn,
         BeforeQuestion, Exposure, LiftsNothing, Reentry.LiftsNothing;
    var n := MindAfterAll(s, m, bs);
    var a := WithAccount(s.app, n, b.t);
    var es := StrategyEventsOfAll(s, m, bs) + BeforeQuestion(s, a, b.t);
    forall k | 0 <= k < |bs| ensures LiftsNothing(s, src, m, bs[k], long) {
      assert (bs + [b])[k] == bs[k];
    }
    assert (bs + [b])[|bs|] == b;
    RunLiftsNothing(s, src, m, bs, long);
    SameReading(s, src, m, n, b, long);
    TickLiftsNothing(s, src, n, b, long);
    RunIsStrategyRun(s, m, bs);
    TickIsStrategyRun(s, n, b);
    StrategyRunsCompose(s.strategy, m.blocks, StrategyEventsOfAll(s, m, bs), BeforeQuestion(s, a, b.t));
    NoHoldingNoExposure(a.account, b.t.fair.price, s.risk.capitalBase, long);
    TickFacts.SupportedHoldingsLeaveNoGap(s.app.planner, a.account);
    Reentry.NoReentryWithoutLiftable(s.strategy, src, m.blocks, es, Question(s, a, b.t), long);
    NoSignalNoEntry(s, n, b.t, b.order, long);
  }

  /** In particular, under the default strategy a stopped side waits for a tick in the range regime, however long. */
  lemma OnlyRangeReopens(s: Settings, src: Reentry.Sources, m: Memory, bs: seq<Moment>, b: Moment, long: bool)
    requires s.app.planner.Scaled() && s.risk.Valid() && s.strategy == Strategy.DEFAULTS
    requires src.Valid() && 0.46 <= src.squash(1.0) <= 0.47 && src.confidence >= 0.9
    requires m.blocks.At(long) != 0 && b.Beat? && !RefreshFails(s.app, MindAfterAll(s, m, bs), b.t)
    requires forall k :: 0 <= k <= |bs| && (bs + [b])[k].Beat? ==> Rangeless(s, src, m, (bs + [b])[k])
    requires var a := WithAccount(s.app, MindAfterAll(s, m, bs), b.t).account;
      a.spot >= 0.0 && a.margin <= 0.0 && !Strategy.On(long, a.Net())
    ensures !OpensOn(long, Reported(s, MindAfterAll(s, m, bs), b.t, b.order).plan)
  {
    hide Reported, MindAfter, OpensOn, Exposure, Reentry.Liftable, Reentry.Plausible;
    forall k | 0 <= k <= |bs| ensures LiftsNothing(s, src, m, (bs + [b])[k], long) {
      if (bs + [b])[k].Beat? {
        Reentry.OnlyRangeIsLiftable(src, long, (bs + [b])[k].t.regime);
      }
    }
    BlockOutlastsTicks(s, src, m, bs, b, long);
  }

  /** A plausible tick outside the range regime. */
  predicate Rangeless(s: Settings, src: Reentry.Sources, m: Memory, b: Moment)
    requires b.Beat?
  {
    && b.t.now != 0 && (forall f :: f in b.order ==> f.time != 0)
    && Reentry.Plausible(s.strategy, src, Question(s, m, b.t)) && b.t.regime != Range
  }
}
