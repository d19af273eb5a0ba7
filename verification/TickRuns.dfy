/** Ticks as runs of the ledger and of the risk state, so that the laws of both hold of everything the bot does. */
module TickRuns {
  import opened Domain
  import opened App
  import opened BotRuns
  import Tracker
  import Ledger
  import LedgerAudit
  import RiskManager
  import RiskHistory
  import Strategy
  import ExitNotes
  import TickFacts

  // ---- The ledger -----------------------------------------------------------------------------------

  /** The funding a short pays a day: the known rate if it is young enough, but never a credit; else the fallback. */
  function RateInForce(cfg: AppConfig, f: FundingRate, now: Time): real {
    if f.valid && f.updatedAt != 0 && now <= f.updatedAt + cfg.fundingMaxAge
    then (if f.dailyRate > 0.0 then f.dailyRate else 0.0) else cfg.fallbackFundingRate
  }

  /** What a tick does to the ledger: its fills, at the stop just tracked and as the note says, and a mark. */
  ghost function LedgerEvents(s: Settings, m: Memory, b: Moment): seq<LedgerAudit.Event> {
    if !b.Beat? || RefreshFails(s.app, m, b.t) || !s.app.paperVerified then []
    else
      var a, rate := WithAccount(s.app, m, b.t), RateInForce(s.app, b.t.funding, b.t.now);
      var tracked := Tracker.Observed(s.stops, a.position, b.t.now, a.account, b.t.direct);
      var leaving := ExitNotes.LeftByStop(a.exitByStop, ExitNotes.ExitCause(ExitOf(s, a, b.t)));
      LedgerAudit.FillEvents(b.order, Ledger.Context(tracked.stopPrice, rate), leaving)
      + [LedgerAudit.Mark(b.t.now, b.t.direct.Mid(), rate)]
  }

  /** A tick is such a run of the ledger, and closes the trades the run closes. */
  lemma TickIsLedgerRun(s: Settings, m: Memory, b: Moment, j: LedgerAudit.Journal)
    requires s.risk.Valid() && j.ledger == m.ledger
    ensures var end := LedgerAudit.Run(j, LedgerEvents(s, m, b));
      && MindAfter(s, m, b).ledger == end.ledger
      && LedgerAudit.Trades(end.closed) == LedgerAudit.Trades(j.closed)
         + if b.Beat? && s.app.paperVerified then Reported(s, m, b.t, b.order).closed else []
  {
    hide Tracker.Observed, ExitOf, Ledger.TakeAll, Ledger.Marked, LedgerAudit.Step, SignalOf, DecisionOf, PlanOf,
         ActionOf, Planned, Ticked, ExitNotes.ExitCause, Strategy.BlocksAfter, Strategy.Marked;
    if b.Beat? && !RefreshFails(s.app, m, b.t) {
      var a := WithAccount(s.app, m, b.t);
      TickFacts.TickKeepsAssessment(s, m, b.t, b.order);
      if s.app.paperVerified {
        BookedContext(s, a, b.t);
        var c := Answered(s, Reconciled(s, a, b.t), b.t);
        LedgerAudit.ProcessIsARun(j, b.order, ContextOf(s.app, c, b.t), c.exitByStop, b.t.now, b.t.direct.Mid());
      } else {
        NothingBooked(s, Answered(s, Reconciled(s, a, b.t), b.t), b.t, b.order);
      }
    } else if b.Beat? {
      AbortedTick(s, m, b.t, b.order);
    }
  }

  lemma BookedContext(s: Settings, a: Memory, t: App.TickInput)
    ensures var c := Answered(s, Reconciled(s, a, t), t);
      && ContextOf(s.app, c, t)
         == Ledger.Context(Tracker.Observed(s.stops, a.position, t.now, a.account, t.direct).stopPrice,
                           RateInForce(s.app, t.funding, t.now))
      && c.exitByStop == ExitNotes.LeftByStop(a.exitByStop, ExitNotes.ExitCause(ExitOf(s, a, t)))
      && c.ledger == a.ledger
  {
    hide Tracker.Observed, ExitOf, Strategy.BlocksAfter, Strategy.Marked, Exposure;
  }

  ghost function LedgerEventsOfAll(s: Settings, m: Memory, bs: seq<Moment>): seq<LedgerAudit.Event>
    requires s.risk.Valid()
  {
    if bs == [] then []
    else
      var front := bs[..|bs| - 1];
      LedgerEventsOfAll(s, m, front) + LedgerEvents(s, MindAfterAll(s, m, front), bs[|bs| - 1])
  }

  lemma {:induction false} LedgerRunsCompose(
    j: LedgerAudit.Journal, es: seq<LedgerAudit.Event>, fs: seq<LedgerAudit.Event>)
    ensures LedgerAudit.Run(j, es + fs) == LedgerAudit.Run(LedgerAudit.Run(j, es), fs)
  {
    hide LedgerAudit.Step;
    if fs == [] {
      assert es + fs == es;
    } else {
      assert (es + fs)[..|es + fs| - 1] == es + fs[..|fs| - 1];
      LedgerRunsCompose(j, es, fs[..|fs| - 1]);
    }
  }

  /** So over every run of ticks the ledger is that of one run of fills and marks, with all its laws. */
  lemma {:induction false} RunIsLedgerRun(s: Settings, m: Memory, bs: seq<Moment>, j: LedgerAudit.Journal)
    requires s.risk.Valid() && j.ledger == m.ledger
    ensures MindAfterAll(s, m, bs).ledger == LedgerAudit.Run(j, LedgerEventsOfAll(s, m, bs)).ledger
  {
    hide MindAfter, LedgerEvents, LedgerAudit.Step;
    if bs != [] {
      var front := bs[..|bs| - 1];
      RunIsLedgerRun(s, m, front, j);
      TickIsLedgerRun(s, MindAfterAll(s, m, front), bs[|bs| - 1], LedgerAudit.Run(j, LedgerEventsOfAll(s, m, front)));
      LedgerRunsCompose(j, LedgerEventsOfAll(s, m, front), LedgerEvents(s, MindAfterAll(s, m, front), bs[|bs| - 1]));
    }
  }

  // ---- The risk state -------------------------------------------------------------------------------

  function Results(closed: seq<Ledger.OpenTrade>): seq<RiskHistory.Event> {
    seq(|closed|, i requires 0 <= i < |closed| => RiskHistory.TradeClosed(closed[i].record.net))
  }

  /** What a tick shows the risk manager: the trades it closes, then the equity of the account, or the base without. */
  ghost function RiskEvents(s: Settings, m: Memory, b: Moment): seq<RiskHistory.Event>
    requires s.risk.Valid()
  {
    if !b.Beat? || RefreshFails(s.app, m, b.t) then []
    else
      var a := WithAccount(s.app, m, b.t).account;
      Results(Reported(s, m, b.t, b.order).closed)
      + [RiskHistory.Equity(b.t.now, if a.synthetic || a.equity <= 0.0 then s.risk.capitalBase else a.equity)]
  }

  /** The risk state after more events from a given history. */
  lemma {:induction false} ResultsAreRecorded(
    cfg: RiskManager.RiskConfig, past: seq<RiskHistory.Event>, closed: seq<Ledger.OpenTrade>)
    ensures RiskHistory.After(cfg, past + Results(closed)) == RecordAll(cfg, RiskHistory.After(cfg, past), closed)
  {
    hide RiskManager.Recorded, RiskManager.Observed;
    if closed == [] {
      assert past + Results(closed) == past;
    } else {
      var front, all := closed[..|closed| - 1], past + Results(closed);
      ResultsAreRecorded(cfg, past, front);
      assert all[..|all| - 1] == past + Results(front);
    }
  }

  lemma TickIsRiskRun(s: Settings, m: Memory, b: Moment, past: seq<RiskHistory.Event>)
    requires s.risk.Valid() && m.risk == RiskHistory.After(s.risk, past)
    ensures MindAfter(s, m, b).risk == RiskHistory.After(s.risk, past + RiskEvents(s, m, b))
  {
    hide Reported, RiskManager.Observed, RiskManager.Recorded, Ticked;
    if b.Beat? && !RefreshFails(s.app, m, b.t) {
      var closed := Reported(s, m, b.t, b.order).closed;
      TickFacts.TickRiskState(s, m, b.t, b.order);
      ResultsAreRecorded(s.risk, past, closed);
      var all := past + RiskEvents(s, m, b);
      assert all[..|all| - 1] == past + Results(closed);
    } else {
      assert past + RiskEvents(s, m, b) == past;
      if b.Beat? {
        AbortedTick(s, m, b.t, b.order);
      }
    }
  }

  ghost function RiskEventsOfAll(s: Settings, m: Memory, bs: seq<Moment>): seq<RiskHistory.Event>
    requires s.risk.Valid()
  {
    if bs == [] then []
    else
      var front := bs[..|bs| - 1];
      RiskEventsOfAll(s, m, front) + RiskEvents(s, MindAfterAll(s, m, front), bs[|bs| - 1])
  }

  /**
   * Over every run of ticks from a fresh risk state, that state is the one of the history of trades closed and equity
   * seen; so the halt is latched if and only if one of them breached a limit.
   */
  lemma {:induction false} RunIsRiskRun(s: Settings, m: Memory, bs: seq<Moment>)
    requires s.risk.Valid() && m.risk == RiskManager.FRESH
    ensures var n, es := MindAfterAll(s, m, bs), RiskEventsOfAll(s, m, bs);
      n.risk == RiskHistory.After(s.risk, es) && (n.risk.halted <==> RiskHistory.IsHalted(s.risk, es))
  {
    hide MindAfter, RiskEvents, RiskHistory.Next, RiskHistory.IsHalted;
    if bs != [] {
      var front := bs[..|bs| - 1];
      RunIsRiskRun(s, m, front);
      TickIsRiskRun(s, MindAfterAll(s, m, front), bs[|bs| - 1], RiskEventsOfAll(s, m, front));
    }
    RiskHistory.HaltedIffBreached(s.risk, RiskEventsOfAll(s, m, bs));
  }
}
