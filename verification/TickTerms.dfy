/** What a tick reads, plans, sends and remembers, in terms of its memory and of the outside world's answers. */
module TickTerms {
  import opened Numbers
  import opened Sequences
  import opened Domain
  import opened Planner
  import opened App
  import PlannerFacts
  import OrderGuard
  import Protocol
  import Tracker
  import Ledger
  import RiskManager
  import TickFacts

  // ---- The account read -----------------------------------------------------------------------------

  /** Without a cached account, or once it is as old as the refresh interval, a new one is asked for. */
  predicate AsksForAccount(cfg: AppConfig, m: Memory, now: Time) {
    m.accountAt == 0 || now >= m.accountAt + cfg.accountRefresh
  }

  predicate DidNothing(r: Report) {
    && !r.exit && r.signal == Signal(0.0, false) && r.closed == [] && !r.decision.allowed && !r.decision.halt
    && r.plan.NoAction? && r.action == Nothing
  }

  /**
   * A tick that asks for the account and gets none ends with the memory as it was; otherwise it works on the answer,
   * dated now, or on a cached account that is younger than the refresh interval.
   */
  lemma AccountIsYoung(s: Settings, m: Memory, t: App.TickInput, order: seq<Ledger.Fill>)
    requires s.risk.Valid()
    ensures var a, asks := WithAccount(s.app, m, t), AsksForAccount(s.app, m, t.now);
      && (Reported(s, m, t, order).aborted <==> asks && t.fetched.None?)
      && (asks && t.fetched.None? ==> DidNothing(Reported(s, m, t, order)))
      && (asks && t.fetched.None? ==> Ticked(s, m, t, order) == m)
      && (asks && t.fetched.Some? ==> a == m.(account := t.fetched.value, accountAt := t.now))
      && (!asks ==> a == m && t.now - m.accountAt < s.app.accountRefresh)
  {
    hide DecisionOf, PlanOf, SignalOf, ExitOf, ClosedBy, ActionOf, Planned, Executed;
  }

  // ---- The plan -------------------------------------------------------------------------------------

  /** What a tick plans to send is a market-crossing reduction when it must leave the position. */
  predicate LeavesAtOnce(p: Plan) {
    p.Submit? ==> !p.intent.protective && !p.intent.postOnly && !IsOpening(p.intent)
  }

  /**
   * A demanded exit or a flattening halt only reduces, at once, and keeps no working order that would open; while
   * entries are blocked every working order is withdrawn first.
   */
  lemma PlanFollowsBranch(s: Settings, m: Memory, t: App.TickInput, order: seq<Ledger.Fill>)
    requires s.app.planner.Scaled() && s.risk.Valid() && !RefreshFails(s.app, m, t)
    ensures var r, orders := Reported(s, m, t, order), WithAccount(s.app, m, t).account.openOrders;
      var leaves := r.exit || (r.decision.halt && r.decision.flatten);
      var working := exists o :: o in orders && o.gid == s.app.planner.groupId;
      && (leaves ==> LeavesAtOnce(r.plan))
      && (!leaves && (r.signal.noNewEntries || !r.decision.allowed) && working ==>
            r.plan.Cancel?
            && forall id :: id in r.plan.ids <==>
                 exists o :: o in orders && o.gid == s.app.planner.groupId && o.id == id)
  {
    hide Assessed, ExitOf, SignalOf, ClosedBy, RiskManager.Evaluated, Decide, ActionOf, NotedExit, LeavesAtOnce, Ids,
         Filter;
    var a, cfg := WithAccount(s.app, m, t), s.app.planner;
    TickFacts.AssessedAccount(s, a, t, order);
    var r := Reported(s, m, t, order);
    var inp := PlannerInput(Assessed(s, a, t, order), t, r.decision.target);
    FlatPlanLeaves(cfg, inp.(target := NO_TARGET, urgent := true));
    forall id ensures id in BotOrderIds(cfg, a.account) <==>
                        exists o :: o in a.account.openOrders && o.gid == cfg.groupId && o.id == id {
      WorkingIds(cfg, a.account, id);
    }
    if o :| o in a.account.openOrders && o.gid == cfg.groupId {
      WorkingIds(cfg, a.account, o.id);
      assert o.id in BotOrderIds(cfg, a.account);
    }
  }

  lemma WorkingIds(cfg: Config, a: Account, id: int)
    ensures id in BotOrderIds(cfg, a) <==> exists o :: o in a.openOrders && o.gid == cfg.groupId && o.id == id
  {
    var working := Filter(a.openOrders, InGroup(cfg.groupId));
    if id in Ids(working) {
      var k :| 0 <= k < |working| && Ids(working)[k] == id;
      assert working[k] in working;
    }
    if o :| o in a.openOrders && o.gid == cfg.groupId && o.id == id {
      assert o in working;
      var k :| 0 <= k < |working| && working[k] == o;
      assert Ids(working)[k] == id;
    }
  }

  lemma FlatPlanLeaves(cfg: Config, inp: Planner.Input)
    requires cfg.Scaled() && inp.target == NO_TARGET && inp.urgent
    ensures LeavesAtOnce(Decide(cfg, inp))
  {
    hide Decide;
    if Decide(cfg, inp).Submit? {
      TickFacts.FlatteningNeverOpens(cfg, inp);
      if Decide(cfg, inp).intent.protective {
        FlatNeverProtects(cfg, inp);
      } else {
        PlannerFacts.WorkingOrderShape(cfg, inp);
      }
    }
  }

  lemma FlatNeverProtects(cfg: Config, inp: Planner.Input)
    requires cfg.Scaled() && inp.target == NO_TARGET
    ensures Decide(cfg, inp).Submit? ==> !Decide(cfg, inp).intent.protective
  {
    hide RoundDown, RoundPrice, Capped, Caps, ChildPrice, Protective, Filter, Sorted, Ids, Stale;
  }

  // ---- What is sent ---------------------------------------------------------------------------------

  /** Orders are on, the last acknowledged one is long enough ago, and the guard accepts a real order. */
  predicate Goes(s: Settings, m: Memory, t: App.TickInput, i: Intent) {
    && s.app.ordersEnabled && (m.lastSubmit == 0 || t.now >= m.lastSubmit + s.app.planner.minSubmitInterval)
    && i.quantity > 0.0 && i.limitPrice > 0.0
    && OrderGuard.Judge(s.app.planner, s.app.guard, m.account, t.now, i) == OrderGuard.Accepted
  }

  /**
   * A planned order is sent exactly if it goes, and is acknowledged if the exchange places it; a planned batch is
   * withdrawn as far as the exchange lets it, on a verified account only.
   */
  lemma SentIff(s: Settings, m: Memory, t: App.TickInput, order: seq<Ledger.Fill>)
    requires s.risk.Valid() && !RefreshFails(s.app, m, t)
    ensures var r, a := Reported(s, m, t, order), WithAccount(s.app, m, t);
      r.action == match r.plan
        case NoAction(_) => Nothing
        case Cancel(ids) =>
          if !s.app.paperVerified then Nothing
          else Cancelled(if t.cancelled < |ids| then ids[..t.cancelled] else ids)
        case Submit(i) =>
          if !Goes(s, a, t, i) then Nothing else if t.outcome == Protocol.Placed then Submitted(i) else Failed(i)
  {
    hide Assessed, ExitOf, SignalOf, ClosedBy, DecisionOf, TickPlan, NotedExit, OrderGuard.Judge;
    TickFacts.AssessedAccount(s, WithAccount(s.app, m, t), t, order);
  }

  /** The order buys spot, or sells short on margin. */
  predicate Adds(p: Plan) {
    p.Submit? && if p.intent.venue == Spot then p.intent.side == Buy
                 else p.intent.side == Sell && !p.intent.closeOnly
  }

  /**
   * What is done at the exchange is remembered: an acknowledged order dates the last submission and drops the cached
   * account, as a batch withdrawn in full does; and an opening order, once submissions are due, arms its stop distance
   * and leaves the reading it was planned on.
   */
  lemma DoneIsRemembered(s: Settings, m: Memory, t: App.TickInput, order: seq<Ledger.Fill>)
    requires s.risk.Valid() && !RefreshFails(s.app, m, t)
    ensures var r, a, n := Reported(s, m, t, order), WithAccount(s.app, m, t), Ticked(s, m, t, order);
      var tracked := Tracker.Observed(s.stops, a.position, t.now, a.account, t.direct);
      var due := s.app.ordersEnabled && (a.lastSubmit == 0 || t.now >= a.lastSubmit + s.app.planner.minSubmitInterval);
      && n.lastSubmit == (if r.action.Submitted? then t.now else a.lastSubmit)
      && n.accountAt == (if r.action.Submitted?
                            || (r.plan.Cancel? && s.app.paperVerified && t.cancelled >= |r.plan.ids|)
                         then 0 else a.accountAt)
      && n.account == a.account
      && n.position.entry == (if Adds(r.plan)
                              then Some(EntryContext(t.regime, t.features.basisZ, t.features.trendScore))
                              else tracked.entry)
      && n.position.pendingStopFraction ==
           (if Adds(r.plan) && due && r.plan.intent.stopDistance > 0.0
            then Max(r.plan.intent.stopDistance, s.stops.minimumFraction) else tracked.pendingStopFraction)
      && n.position == tracked.(entry := n.position.entry, pendingStopFraction := n.position.pendingStopFraction,
                                updatedAt := n.position.updatedAt)
  {
    hide ExitOf, SignalOf, ClosedBy, DecisionOf, TickPlan, NotedExit, OrderGuard.Judge, Tracker.Observed;
    var a := WithAccount(s.app, m, t);
    TickFacts.AssessedAccount(s, a, t, order);
    AssessedPosition(s, a, t, order);
    hide Assessed;
  }

  lemma AssessedPosition(s: Settings, m: Memory, t: App.TickInput, order: seq<Ledger.Fill>)
    ensures Assessed(s, m, t, order).position == Tracker.Observed(s.stops, m.position, t.now, m.account, t.direct)
  {
    hide Tracker.Observed, ExitOf, Ledger.TakeAll, Ledger.Marked, RiskManager.Observed;
  }
}
