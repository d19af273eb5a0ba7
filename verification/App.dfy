/**
 * The orchestration loop: one tick from account snapshot to at most one action, in the order the bot takes. What a tick
 * makes of the bot's memory is a function of that memory and of the outside world's answers.
 */
module App {
  import opened Numbers
  import opened Sequences
  import opened Domain
  import opened Planner
  import PlannerLoops
  import OrderGuard
  import Protocol
  import Tracker
  import Ledger
  import RiskManager
  import Strategy

  datatype AppConfig = AppConfig(
    planner: Config, guard: OrderGuard.GuardConfig, accountRefresh: Duration, flattenOnHardHalt: bool,
    fallbackFundingRate: real, fundingMaxAge: Duration, paperVerified: bool, ordersEnabled: bool)

  /** What the outside world answers during one tick; None for a failed account refresh. */
  datatype TickInput = TickInput(
    now: Time, fetched: Option<Account>, direct: Book, modelDirect: Book, fair: FairValue, features: Strategy.Features,
    regime: Regime, funding: FundingRate, fills: seq<Ledger.Fill>, recentVolume: real, haltFile: bool,
    outcome: Protocol.Outcome, cancelled: nat)

  /** What a tick did at the exchange; Failed is a submission that came back with an error. */
  datatype Action = Nothing | Cancelled(ids: seq<int>) | Submitted(intent: Intent) | Failed(intent: Intent)

  predicate OpensPosition(a: Action) {
    a.Submitted? && IsOpening(a.intent)
  }

  function Exposure(a: Account, fair: real, cap: real): real {
    var base := if a.synthetic || a.equity <= 0.0 then cap else a.equity;
    var equity := Min(base, cap);
    if fair <= 0.0 || equity <= 0.0 then 0.0 else a.Net() * fair / equity
  }

  function FundingRateFor(cfg: AppConfig, f: FundingRate, now: Time): real {
    if f.valid && f.updatedAt != 0 && now - f.updatedAt <= cfg.fundingMaxAge then Max(0.0, f.dailyRate)
    else cfg.fallbackFundingRate
  }

  function BotOrderIds(cfg: Config, a: Account): seq<int> {
    Ids(Filter(a.openOrders, InGroup(cfg.groupId)))
  }

  /** The branch taken once the risk decision is known: exit, halt-flatten, entries blocked, or the target. */
  function TickPlan(cfg: Config, exit: bool, d: RiskManager.Decision, noNewEntries: bool, inp: Input): Plan {
    if exit || (d.halt && d.flatten) then Decide(cfg, inp.(target := NO_TARGET, urgent := true))
    else if noNewEntries || !d.allowed then
      if BotOrderIds(cfg, inp.account) != [] then Cancel(BotOrderIds(cfg, inp.account))
      else Decide(cfg, HoldInput(inp))
    else Decide(cfg, inp.(target := d.target))
  }

  /** Planning for the position as it stands, to keep it protected. */
  function HoldInput(inp: Input): Input {
    inp.(target := NO_TARGET.(quantity := inp.account.Net()))
  }

  // ---- The memory of a bot ------------------------------------------------------------------------

  datatype Settings = Settings(
    app: AppConfig, risk: RiskManager.RiskConfig, stops: Tracker.StopConfig, strategy: Strategy.StrategyConfig)

  /** Everything a bot carries from one tick to the next. */
  datatype Memory = Memory(
    account: Account, accountAt: Time, lastSubmit: Time, exitByStop: bool, position: Position, ledger: Ledger.State,
    blocks: Strategy.Blocks, risk: RiskManager.State)

  // ---- The account --------------------------------------------------------------------------------

  predicate AccountDue(cfg: AppConfig, m: Memory, now: Time) {
    m.accountAt == 0 || now - m.accountAt >= cfg.accountRefresh
  }

  predicate RefreshFails(cfg: AppConfig, m: Memory, t: TickInput) {
    AccountDue(cfg, m, t.now) && t.fetched.None?
  }

  function WithAccount(cfg: AppConfig, m: Memory, t: TickInput): Memory {
    if AccountDue(cfg, m, t.now) && t.fetched.Some? then m.(account := t.fetched.value, accountAt := t.now) else m
  }

  // ---- What a tick learns -------------------------------------------------------------------------

  /** Whether fills are booked as stopped out: this tick's exit decides, else the last one noted. */
  function StopExit(e: Tracker.Exit, was: bool): bool {
    if e == Tracker.NoExit then was else e == Tracker.StopHit
  }

  ghost function ExitOf(s: Settings, m: Memory, t: TickInput): Tracker.Exit {
    Tracker.Announced(s.stops, m.position, t.now, m.account, t.direct).exit
  }

  /** After reconciling the position; a stopped-out direction is blocked. */
  ghost function Reconciled(s: Settings, m: Memory, t: TickInput): Memory {
    var p := Tracker.Observed(s.stops, m.position, t.now, m.account, t.direct);
    var e := ExitOf(s, m, t);
    m.(position := p, exitByStop := StopExit(e, m.exitByStop),
       blocks := if e == Tracker.StopHit then Strategy.Marked(m.blocks, p.quantity, t.now) else m.blocks)
  }

  function Question(s: Settings, m: Memory, t: TickInput): Strategy.Input {
    Strategy.Input(t.now, t.regime, t.features, t.fair, t.modelDirect, t.funding,
                   Exposure(m.account, t.fair.price, s.risk.capitalBase))
  }

  /** After asking the strategy, which may lift a block. */
  function Answered(s: Settings, m: Memory, t: TickInput): Memory {
    m.(blocks := Strategy.BlocksAfter(s.strategy, m.blocks, Question(s, m, t)))
  }

  /** The accounting context of a tick: the tracked stop and the funding rate in force. */
  function ContextOf(cfg: AppConfig, m: Memory, t: TickInput): Ledger.Context {
    Ledger.Context(m.position.stopPrice, FundingRateFor(cfg, t.funding, t.now))
  }

  /** The ledger after the fills in the order they are taken; without a verified account none are asked for. */
  function Taken(s: Settings, m: Memory, t: TickInput, order: seq<Ledger.Fill>): Ledger.Result {
    if s.app.paperVerified then Ledger.TakeAll(m.ledger, order, ContextOf(s.app, m, t), m.exitByStop)
    else Ledger.Result(m.ledger, [])
  }

  function RecordAll(cfg: RiskManager.RiskConfig, s: RiskManager.State, closed: seq<Ledger.OpenTrade>)
    : RiskManager.State
  {
    if closed == [] then s
    else RiskManager.Recorded(cfg, RecordAll(cfg, s, closed[..|closed| - 1]), closed[|closed| - 1].record.net)
  }

  /** A trade closed by a stop blocks its direction from its exit on. */
  function MarkTrade(b: Strategy.Blocks, trade: Ledger.OpenTrade): Strategy.Blocks {
    var r := trade.record;
    if r.byStop then Strategy.Marked(b, if r.long then 1.0 else -1.0, r.exitTime) else b
  }

  function MarkAll(b: Strategy.Blocks, closed: seq<Ledger.OpenTrade>): Strategy.Blocks {
    if closed == [] then b else MarkTrade(MarkAll(b, closed[..|closed| - 1]), closed[|closed| - 1])
  }

  /** After consuming the fills: every closed trade reaches the risk manager and, if stopped out, the strategy. */
  function Booked(s: Settings, m: Memory, t: TickInput, order: seq<Ledger.Fill>): Memory {
    if !s.app.paperVerified then m
    else
      var r := Taken(s, m, t, order);
      m.(ledger := Ledger.Marked(r.state, t.now, t.direct.Mid(), ContextOf(s.app, m, t).fundingDailyRate),
         risk := RecordAll(s.risk, m.risk, r.closed), blocks := MarkAll(m.blocks, r.closed),
         exitByStop := m.exitByStop && r.closed == [])
  }

  function EquityObserved(s: Settings, m: Memory, t: TickInput): Memory {
    m.(risk := RiskManager.Observed(s.risk, m.risk, t.now, RiskManager.DrawdownEquity(s.risk, m.account)))
  }

  /** Reconcile, ask, book the fills, observe the equity: all of it precedes the risk decision. */
  ghost function Assessed(s: Settings, m: Memory, t: TickInput, order: seq<Ledger.Fill>): Memory {
    EquityObserved(s, Booked(s, Answered(s, Reconciled(s, m, t), t), t, order), t)
  }

  ghost function SignalOf(s: Settings, m: Memory, t: TickInput): Signal {
    Strategy.Decided(s.strategy, Reconciled(s, m, t).blocks, Question(s, m, t))
  }

  ghost function ClosedBy(s: Settings, m: Memory, t: TickInput, order: seq<Ledger.Fill>): seq<Ledger.OpenTrade> {
    Taken(s, Answered(s, Reconciled(s, m, t), t), t, order).closed
  }

  // ---- What a tick decides ------------------------------------------------------------------------

  function ReadingOf(s: Settings, m: Memory, t: TickInput, signal: Signal): RiskManager.Reading {
    RiskManager.Reading(t.now, signal, t.features.volatility, t.fair, t.direct, m.account, m.position, t.haltFile,
                        s.app.flattenOnHardHalt)
  }

  function PlannerInput(m: Memory, t: TickInput, target: Target): Input {
    Input(t.now, m.account, target, m.position, t.direct, t.recentVolume, false)
  }

  /** A close chosen by the signal or by a flattening halt is not a stop exit. */
  function NotedExit(cfg: Config, m: Memory, exit: bool, signal: Signal, d: RiskManager.Decision): bool {
    var net := m.account.Net();
    var closing := Abs(d.target.quantity) <= cfg.tolerance || d.target.quantity * net < 0.0;
    && m.exitByStop
    && !(!signal.noNewEntries && d.allowed && !d.halt && Abs(net) > cfg.tolerance && closing)
    && !(!exit && d.halt && d.flatten)
  }

  function WithEntry(p: Position, plan: Plan, t: TickInput): Position {
    if OpeningPlan(plan) then p.(entry := Some(EntryContext(t.regime, t.features.basisZ, t.features.trendScore))) else p
  }

  // ---- What a tick does ---------------------------------------------------------------------------

  /** Orders are enabled and the last accepted one is long enough ago. */
  predicate MaySubmit(cfg: AppConfig, m: Memory, now: Time) {
    cfg.ordersEnabled && (m.lastSubmit == 0 || now - m.lastSubmit >= cfg.planner.minSubmitInterval)
  }

  /** The order passes the adapter's own checks and is sent to the exchange. */
  predicate Sends(cfg: AppConfig, m: Memory, t: TickInput, i: Intent) {
    && MaySubmit(cfg, m, t.now) && i.quantity > 0.0 && i.limitPrice > 0.0
    && OrderGuard.Judge(cfg.planner, cfg.guard, m.account, t.now, i) == OrderGuard.Accepted
  }

  function ActionOf(cfg: AppConfig, m: Memory, t: TickInput, plan: Plan): Action {
    match plan
    case NoAction(_) => Nothing
    case Cancel(ids) => if cfg.paperVerified then Cancelled(Protocol.TakeAtMost(ids, t.cancelled)) else Nothing
    case Submit(i) =>
      if !Sends(cfg, m, t, i) then Nothing
      else if t.outcome == Protocol.Placed then Submitted(i) else Failed(i)
  }

  /** A change at the exchange invalidates the cached account; an opening order arms its stop before it is sent. */
  function Executed(cfg: AppConfig, stops: Tracker.StopConfig, m: Memory, t: TickInput, plan: Plan): Memory {
    match plan
    case NoAction(_) => m
    case Cancel(ids) => if cfg.paperVerified && t.cancelled >= |ids| then m.(accountAt := 0) else m
    case Submit(i) =>
      var armed := if MaySubmit(cfg, m, t.now) && IsOpening(i)
                   then m.(position := Tracker.Armed(stops, m.position, i.stopDistance, t.now)) else m;
      if Sends(cfg, m, t, i) && t.outcome == Protocol.Placed then armed.(lastSubmit := t.now, accountAt := 0) else armed
  }

  // ---- A whole tick -------------------------------------------------------------------------------

  /** What a tick did; aborted when the account could not be refreshed. order is how the fills were taken. */
  datatype Report = Report(
    aborted: bool, order: seq<Ledger.Fill>, exit: bool, signal: Signal, closed: seq<Ledger.OpenTrade>,
    decision: RiskManager.Decision, plan: Plan, action: Action)

  const ABORTED := Report(true, [], false, Signal(0.0, false), [], RiskManager.REFUSED, NoAction(NotPlanned), Nothing)

  ghost function DecisionOf(s: Settings, m: Memory, t: TickInput, order: seq<Ledger.Fill>): RiskManager.Decision
    requires s.risk.Valid()
  {
    var a := Assessed(s, m, t, order);
    RiskManager.Evaluated(s.risk, a.risk, ReadingOf(s, a, t, SignalOf(s, m, t)))
  }

  ghost function PlanOf(s: Settings, m: Memory, t: TickInput, order: seq<Ledger.Fill>): Plan
    requires s.risk.Valid()
  {
    var d := DecisionOf(s, m, t, order);
    TickPlan(s.app.planner, ExitOf(s, m, t) != Tracker.NoExit, d, SignalOf(s, m, t).noNewEntries,
             PlannerInput(Assessed(s, m, t, order), t, d.target))
  }

  /** The memory with which the plan is carried out. */
  ghost function Planned(s: Settings, m: Memory, t: TickInput, order: seq<Ledger.Fill>): Memory
    requires s.risk.Valid()
  {
    var a, d := Assessed(s, m, t, order), DecisionOf(s, m, t, order);
    a.(exitByStop := NotedExit(s.app.planner, a, ExitOf(s, m, t) != Tracker.NoExit, SignalOf(s, m, t), d),
       position := WithEntry(a.position, PlanOf(s, m, t, order), t))
  }

  /** The memory after one tick. */
  ghost function Ticked(s: Settings, m: Memory, t: TickInput, order: seq<Ledger.Fill>): Memory
    requires s.risk.Valid()
  {
    if RefreshFails(s.app, m, t) then m
    else
      var a := WithAccount(s.app, m, t);
      Executed(s.app, s.stops, Planned(s, a, t, order), t, PlanOf(s, a, t, order))
  }

  /** What the tick reports. */
  ghost function Reported(s: Settings, m: Memory, t: TickInput, order: seq<Ledger.Fill>): Report
    requires s.risk.Valid()
  {
    if RefreshFails(s.app, m, t) then ABORTED.(order := order)
    else
      var a := WithAccount(s.app, m, t);
      var plan := PlanOf(s, a, t, order);
      Report(false, order, ExitOf(s, a, t) != Tracker.NoExit, SignalOf(s, a, t), ClosedBy(s, a, t, order),
             DecisionOf(s, a, t, order), plan, ActionOf(s.app, Planned(s, a, t, order), t, plan))
  }

  // ---- The bot ------------------------------------------------------------------------------------

  class Bot {
    const cfg: AppConfig
    const tracker: Tracker.PositionTracker
    const ledger: Ledger.FillLedger
    const strategy: Strategy.Engine
    const risk: RiskManager.Manager
    var account: Account
    var accountAt: Time
    var lastSubmit: Time
    var exitByStop: bool

    constructor (cfg: AppConfig, tracker: Tracker.PositionTracker, ledger: Ledger.FillLedger, strategy: Strategy.Engine,
                 risk: RiskManager.Manager)
      ensures this.cfg == cfg && this.tracker == tracker && this.ledger == ledger
      ensures this.strategy == strategy && this.risk == risk && accountAt == 0 && lastSubmit == 0
    {
      this.cfg, this.tracker, this.ledger, this.strategy, this.risk := cfg, tracker, ledger, strategy, risk;
      account := Account(0.0, 0.0, 0.0, 0.0, [], false, 0);
      accountAt, lastSubmit, exitByStop := 0, 0, false;
    }

    ghost function Configuration(): Settings {
      Settings(cfg, risk.cfg, tracker.cfg, strategy.cfg)
    }

    ghost function Mind(): Memory
      reads this, tracker, ledger, strategy, risk
    {
      Memory(account, accountAt, lastSubmit, exitByStop, tracker.state, ledger.Current(), strategy.blocks, risk.state)
    }

    /** Fetches the account when none is cached or the cached one is due; false if that failed. */
    method RefreshAccount(t: TickInput) returns (ok: bool)
      modifies `account, `accountAt
      ensures ok == !RefreshFails(cfg, old(Mind()), t)
      ensures Mind() == if ok then WithAccount(cfg, old(Mind()), t) else old(Mind())
    {
      if accountAt == 0 || t.now - accountAt >= cfg.accountRefresh {
        if t.fetched.None? {
          return false;
        }
        account := t.fetched.value;
        accountAt := t.now;
      }
      return true;
    }

    /** Takes the tick's fills and hands every closed trade to the risk manager before anything is decided. */
    method ConsumeFills(t: TickInput) returns (order: seq<Ledger.Fill>, closed: seq<Ledger.OpenTrade>)
      requires cfg.paperVerified && ledger.Saved()
      modifies ledger, strategy, risk, `exitByStop
      ensures ledger.Saved()
      ensures multiset(order) == multiset(t.fills)
      ensures forall i, j :: 0 <= i < j < |order| ==> order[i].time <= order[j].time
      ensures closed == Taken(Configuration(), old(Mind()), t, order).closed
      ensures Mind() == Booked(Configuration(), old(Mind()), t, order)
    {
      hide Ledger.TakeAll, Ledger.Marked, Ledger.Newest, Strategy.Marked, RiskManager.Recorded;
      ghost var was := Mind();
      var ctx := Ledger.Context(tracker.state.stopPrice, FundingRateFor(cfg, t.funding, t.now));
      closed, order := ledger.Process(t.now, t.fills, ctx, t.direct.Mid(), exitByStop);
      ghost var booked := ledger.Current();
      for i := 0 to |closed|
        invariant ledger.Saved() && ledger.Current() == booked
        invariant risk.state == RecordAll(risk.cfg, was.risk, closed[..i])
        invariant strategy.blocks == MarkAll(was.blocks, closed[..i])
        invariant exitByStop == (was.exitByStop && i == 0)
      {
        assert closed[..i + 1][..i] == closed[..i];
        risk.RecordClosedTrade(closed[i].record.net);
        if closed[i].record.byStop {
          strategy.MarkStopped(if closed[i].record.long then 1.0 else -1.0, closed[i].record.exitTime);
        }
        exitByStop := false;
      }
      assert closed[..|closed|] == closed;
    }

    method PlanAction(exit: bool, d: RiskManager.Decision, noNewEntries: bool, inp: Input) returns (plan: Plan)
      ensures plan == TickPlan(cfg.planner, exit, d, noNewEntries, inp)
    {
      hide Decide;
      if exit || (d.halt && d.flatten) {
        plan := PlannerLoops.PlanTick(cfg.planner, inp.(target := NO_TARGET, urgent := true));
      } else if noNewEntries || !d.allowed {
        var working := PlannerLoops.FilterGroup(inp.account.openOrders, cfg.planner.groupId);
        if Ids(working) != [] {
          return Cancel(Ids(working));
        }
        plan := PlannerLoops.PlanTick(cfg.planner, HoldInput(inp));
      } else {
        plan := PlannerLoops.PlanTick(cfg.planner, inp.(target := d.target));
      }
    }

    /** Carries out a plan; a change at the exchange invalidates the cached account. */
    method Execute(plan: Plan, t: TickInput) returns (action: Action)
      modifies tracker, `accountAt, `lastSubmit
      ensures action == ActionOf(cfg, old(Mind()), t, plan)
      ensures Mind() == Executed(cfg, tracker.cfg, old(Mind()), t, plan)
    {
      hide OrderGuard.Judge;
      match plan {
        case NoAction(_) => return Nothing;
        case Cancel(ids) =>
          if !cfg.paperVerified {
            return Nothing;
          }
          if t.cancelled < |ids| {
            return Cancelled(ids[..t.cancelled]);
          }
          accountAt := 0;
          return Cancelled(ids);
        case Submit(i) =>
          if !cfg.ordersEnabled || (lastSubmit != 0 && t.now - lastSubmit < cfg.planner.minSubmitInterval) {
            return Nothing;
          }
          if IsOpening(i) && i.stopDistance > 0.0 {
            tracker.Arm(i.stopDistance, t.now);
          }
          var verdict := OrderGuard.ValidateIntent(cfg.planner, cfg.guard, account, t.now, i);
          if verdict != OrderGuard.Accepted || i.quantity <= 0.0 || i.limitPrice <= 0.0 {
            return Nothing;
          }
          if t.outcome != Protocol.Placed {
            return Failed(i);
          }
          lastSubmit := t.now;
          accountAt := 0;
          return Submitted(i);
      }
    }

    /**
     * The first half of a tick: reconcile the position, form the signal, consume the fills, observe the equity and
     * only then evaluate the risk.
     */
    method Assess(t: TickInput)
      returns (exit: bool, signal: Signal, d: RiskManager.Decision, order: seq<Ledger.Fill>,
               closed: seq<Ledger.OpenTrade>)
      requires risk.cfg.Valid() && ledger.Saved()
      modifies tracker, ledger, strategy, risk, `exitByStop
      ensures ledger.Saved()
      ensures cfg.paperVerified ==> multiset(order) == multiset(t.fills)
      ensures forall i, j :: 0 <= i < j < |order| ==> order[i].time <= order[j].time
      ensures exit == (ExitOf(Configuration(), old(Mind()), t) != Tracker.NoExit)
      ensures signal == SignalOf(Configuration(), old(Mind()), t)
      ensures closed == ClosedBy(Configuration(), old(Mind()), t, order)
      ensures Mind() == Assessed(Configuration(), old(Mind()), t, order)
      ensures d == DecisionOf(Configuration(), old(Mind()), t, order)
    {
      hide RiskManager.Observed, RiskManager.Evaluated, Ledger.TakeAll, Ledger.Marked, Ledger.Newest, Taken,
           Tracker.Observed, Tracker.Announced, Strategy.Decided, Strategy.BlocksAfter, Strategy.Marked, Booked,
           Exposure;
      ghost var was := Mind();
      var event := tracker.Reconcile(t.now, account, t.direct);
      exit := event.exit != Tracker.NoExit;
      if exit {
        exitByStop := event.exit == Tracker.StopHit;
        if exitByStop {
          strategy.MarkStopped(tracker.state.quantity, t.now);
        }
      }
      assert Mind() == Reconciled(Configuration(), was, t);
      var exposure := Exposure(account, t.fair.price, risk.cfg.capitalBase);
      var answer, _ := strategy.Ask(
        Strategy.Input(t.now, t.regime, t.features, t.fair, t.modelDirect, t.funding, exposure));
      signal := answer;
      assert Mind() == Answered(Configuration(), Reconciled(Configuration(), was, t), t);
      order, closed := [], [];
      if cfg.paperVerified {
        order, closed := ConsumeFills(t);
      } else {
        NothingBooked(Configuration(), Mind(), t, order);
      }
      risk.ObserveEquity(t.now, RiskManager.DrawdownEquity(risk.cfg, account));
      d := risk.Evaluate(RiskManager.Reading(
        t.now, signal, t.features.volatility, t.fair, t.direct, account, tracker.state, t.haltFile,
        cfg.flattenOnHardHalt));
    }

    method NoteExitReason(exit: bool, signal: Signal, d: RiskManager.Decision)
      modifies `exitByStop
      ensures exitByStop == NotedExit(cfg.planner, old(Mind()), exit, signal, d)
    {
      var net := account.spot + account.margin;
      var closing := Abs(d.target.quantity) <= cfg.planner.tolerance || d.target.quantity * net < 0.0;
      if !signal.noNewEntries && d.allowed && !d.halt && Abs(net) > cfg.planner.tolerance && closing {
        exitByStop := false;
      }
      if !exit && d.halt && d.flatten {
        exitByStop := false;
      }
    }

    /** One tick: the whole new memory and the whole report are the specified ones. */
    method Tick(t: TickInput) returns (r: Report)
      requires risk.cfg.Valid() && ledger.Saved()
      modifies this, tracker, ledger, strategy, risk
      ensures ledger.Saved()
      ensures !r.aborted && cfg.paperVerified ==> multiset(r.order) == multiset(t.fills)
      ensures forall i, j :: 0 <= i < j < |r.order| ==> r.order[i].time <= r.order[j].time
      ensures Mind() == Ticked(Configuration(), old(Mind()), t, r.order)
      ensures r == Reported(Configuration(), old(Mind()), t, r.order)
    {
      hide ExitOf, SignalOf, ClosedBy, Assessed, DecisionOf, TickPlan, NotedExit, ActionOf, Executed, Ledger.Newest;
      var ok := RefreshAccount(t);
      if !ok {
        return ABORTED;
      }
      var exit, signal, d, order, closed := Assess(t);
      NoteExitReason(exit, signal, d);
      var plan := PlanAction(
        exit, d, signal.noNewEntries, Input(t.now, account, d.target, tracker.state, t.direct, t.recentVolume, false));
      if OpeningPlan(plan) {
        tracker.SetEntryContext(EntryContext(t.regime, t.features.basisZ, t.features.trendScore));
      }
      var action := Execute(plan, t);
      r := Report(false, order, exit, signal, closed, d, plan, action);
    }
  }

  lemma NothingBooked(s: Settings, m: Memory, t: TickInput, order: seq<Ledger.Fill>)
    requires !s.app.paperVerified
    ensures Booked(s, m, t, order) == m && Taken(s, m, t, order).closed == []
  {
  }
}
