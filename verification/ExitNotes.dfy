/** Why the bot last meant to leave a position: what decides whether its fills are booked as stopped out. */
module ExitNotes {
  import opened Numbers
  import opened Domain
  import opened Planner
  import opened App
  import opened BotRuns
  import Tracker
  import Ledger
  import RiskManager
  import TickFacts

  /** What can replace the note on why a position is left. */
  datatype Cause = StopExit | OtherExit | TradeClosed | SignalClose | HaltFlatten

  /** The signal itself, through an allowed target, asks to close or to reverse what is held. */
  predicate SignalLeaves(tolerance: real, net: real, signal: Signal, d: RiskManager.Decision) {
    var q := d.target.quantity;
    && !signal.noNewEntries && d.allowed && !d.halt && (net > tolerance || net < -tolerance)
    && ((-tolerance <= q <= tolerance) || SameSign(-q, net))
  }

  /** The causes of one tick, in the order in which it meets them. */
  ghost function CausesOf(s: Settings, m: Memory, b: Moment): seq<Cause>
    requires s.risk.Valid()
  {
    if !b.Beat? || RefreshFails(s.app, m, b.t) then []
    else
      var a, r := WithAccount(s.app, m, b.t), Reported(s, m, b.t, b.order);
      ExitCause(ExitOf(s, a, b.t)) + (if r.closed != [] then [TradeClosed] else [])
      + (if SignalLeaves(s.app.planner.tolerance, a.account.Net(), r.signal, r.decision) then [SignalClose] else [])
      + (if ExitOf(s, a, b.t) == Tracker.NoExit && r.decision.halt && r.decision.flatten then [HaltFlatten] else [])
  }

  function ExitCause(e: Tracker.Exit): seq<Cause> {
    match e
    case NoExit => []
    case StopHit => [StopExit]
    case SimultaneousHoldings => [OtherExit]
    case HoldingTime => [OtherExit]
  }

  ghost function CausesOfAll(s: Settings, m: Memory, bs: seq<Moment>): seq<Cause>
    requires s.risk.Valid()
  {
    if bs == [] then []
    else
      var front := bs[..|bs| - 1];
      CausesOfAll(s, m, front) + CausesOf(s, MindAfterAll(s, m, front), bs[|bs| - 1])
  }

  /** The last cause was a stop exit; without any the note is as it was. */
  predicate LeftByStop(was: bool, causes: seq<Cause>) {
    if causes == [] then was else causes[|causes| - 1] == StopExit
  }

  lemma LeavingIsClosing(tolerance: real, net: real, q: real)
    ensures q * net < 0.0 <==> SameSign(-q, net)
  {
    Negate(q, net);
    if q > 0.0 {
      if net > 0.0 {
        MulStrict(0.0, q, net);
      } else if net < 0.0 {
        MulStrict(net, 0.0, q);
      }
    } else if q < 0.0 {
      if net > 0.0 {
        MulStrict(q, 0.0, net);
      } else if net < 0.0 {
        MulStrict(0.0, -q, -net);
        Negate(q, -net);
        Negate(net, q);
      }
    }
  }

  /** The note after a tick's fills and equity are taken. */
  lemma AssessedNote(s: Settings, m: Memory, t: TickInput, order: seq<Ledger.Fill>)
    ensures Assessed(s, m, t, order).exitByStop
         == LeftByStop(m.exitByStop,
                       ExitCause(ExitOf(s, m, t)) + if ClosedBy(s, m, t, order) != [] then [TradeClosed] else [])
  {
    hide ExitOf, Tracker.Observed, Ledger.TakeAll, Ledger.Marked, RiskManager.Observed, RecordAll, MarkAll;
  }

  /** A tick's causes are all that changes the note. */
  lemma TickNotes(s: Settings, m: Memory, b: Moment)
    requires s.risk.Valid()
    ensures MindAfter(s, m, b).exitByStop == LeftByStop(m.exitByStop, CausesOf(s, m, b))
  {
    hide ExitOf, Assessed, ClosedBy, SignalOf, DecisionOf, PlanOf, Executed, ActionOf, ExitCause;
    if b.Beat? && !RefreshFails(s.app, m, b.t) {
      var a := WithAccount(s.app, m, b.t);
      AssessedNote(s, a, b.t, b.order);
      TickFacts.AssessedAccount(s, a, b.t, b.order);
      PlannedNote(s, a, b.t, b.order);
      ExecutedNote(s.app, s.stops, Planned(s, a, b.t, b.order), b.t, PlanOf(s, a, b.t, b.order));
    }
  }

  lemma ExecutedNote(
    cfg: AppConfig, stops: Tracker.StopConfig, m: Memory, t: App.TickInput, plan: Plan)
    ensures Executed(cfg, stops, m, t, plan).exitByStop == m.exitByStop
  {
    hide Sends, MaySubmit;
  }

  lemma PlannedNote(s: Settings, m: Memory, t: App.TickInput, order: seq<Ledger.Fill>)
    requires s.risk.Valid()
    ensures var d, a := DecisionOf(s, m, t, order), Assessed(s, m, t, order);
      Planned(s, m, t, order).exitByStop ==
        (a.exitByStop
         && !SignalLeaves(s.app.planner.tolerance, a.account.Net(), SignalOf(s, m, t), d)
         && !(ExitOf(s, m, t) == Tracker.NoExit && d.halt && d.flatten))
  {
    hide ExitOf, Assessed, SignalOf, DecisionOf, PlanOf;
    LeavingIsClosing(s.app.planner.tolerance, Assessed(s, m, t, order).account.Net(),
                     DecisionOf(s, m, t, order).target.quantity);
  }

  /**
   * Over every run of ticks the note holds if and only if the last of all tracker exits, closed trades, closes or
   * reversals chosen by the signal and flattening halts was a stop exit.
   */
  lemma {:induction false} NoteIsTheLastCause(s: Settings, m: Memory, bs: seq<Moment>)
    requires s.risk.Valid()
    ensures MindAfterAll(s, m, bs).exitByStop == LeftByStop(m.exitByStop, CausesOfAll(s, m, bs))
  {
    hide MindAfter, CausesOf;
    if bs != [] {
      NoteIsTheLastCause(s, m, bs[..|bs| - 1]);
      TickNotes(s, MindAfterAll(s, m, bs[..|bs| - 1]), bs[|bs| - 1]);
    }
  }

  // ---- Trades that count as stopped out -------------------------------------------------------------

  lemma TakenByStop(l: Ledger.State, f: Ledger.Fill, ctx: Ledger.Context, byStop: bool)
    ensures forall o :: o in Ledger.Take(l, f, ctx, byStop).closed ==> o.record.byStop == (byStop || f.isStop)
  {
  }

  /** A trade is booked as stopped out if the note says so or the fill that closed it is of a stop order. */
  lemma {:induction false} AllTakenByStop(l: Ledger.State, fills: seq<Ledger.Fill>, ctx: Ledger.Context, byStop: bool)
    ensures forall o :: o in Ledger.TakeAll(l, fills, ctx, byStop).closed ==>
      && (byStop ==> o.record.byStop)
      && (o.record.byStop ==> byStop || exists f :: f in fills && f.isStop && f.time == o.record.exitTime)
  {
    hide Ledger.Take;
    if fills != [] {
      var front, last := fills[..|fills| - 1], fills[|fills| - 1];
      var r := Ledger.TakeAll(l, front, ctx, byStop);
      AllTakenByStop(l, front, ctx, byStop);
      TakenByStop(r.state, last, ctx, byStop);
      ClosedAtFill(r.state, last, ctx, byStop);
      forall o | o in Ledger.TakeAll(l, fills, ctx, byStop).closed
        ensures byStop ==> o.record.byStop
        ensures o.record.byStop ==> byStop || exists f :: f in fills && f.isStop && f.time == o.record.exitTime
      {
        if o in r.closed {
          if o.record.byStop && !byStop {
            var f :| f in front && f.isStop && f.time == o.record.exitTime;
            assert f in fills;
          }
        } else {
          assert o in Ledger.Take(r.state, last, ctx, byStop).closed && last in fills;
        }
      }
    }
  }

  /** The note with which the fills of a run's next tick are booked. */
  ghost predicate Leaving(s: Settings, m: Memory, bs: seq<Moment>, b: Moment)
    requires s.risk.Valid() && b.Beat?
  {
    var n := MindAfterAll(s, m, bs);
    LeftByStop(m.exitByStop, CausesOfAll(s, m, bs) + ExitCause(ExitOf(s, WithAccount(s.app, n, b.t), b.t)))
  }

  /**
   * Over every run, a trade that a tick closes counts as stopped out exactly if the position was last left by a stop
   * exit, this tick's own included, or else only if a fill of a stop order closed it.
   */
  lemma StoppedOutIff(s: Settings, m: Memory, bs: seq<Moment>, b: Moment)
    requires s.risk.Valid() && b.Beat?
    ensures forall o :: o in Reported(s, MindAfterAll(s, m, bs), b.t, b.order).closed ==>
      && (Leaving(s, m, bs, b) ==> o.record.byStop)
      && (o.record.byStop ==>
            Leaving(s, m, bs, b) || exists f :: f in b.order && f.isStop && f.time == o.record.exitTime)
  {
    hide MindAfterAll, CausesOfAll, ExitOf, DecisionOf, SignalOf, PlanOf, ActionOf, Planned, Ledger.TakeAll,
         Tracker.Observed;
    var n := MindAfterAll(s, m, bs);
    if !RefreshFails(s.app, n, b.t) {
      NoteIsTheLastCause(s, m, bs);
      var a := WithAccount(s.app, n, b.t);
      var c := Answered(s, Reconciled(s, a, b.t), b.t);
      AllTakenByStop(c.ledger, b.order, ContextOf(s.app, c, b.t), c.exitByStop);
    }
  }
}
