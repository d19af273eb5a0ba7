/** Short funding over the whole life of a trade, through adds, partial closes and reversals in any run. */
module FundingLife {
  import opened Domain
  import opened Ledger
  import opened Funding
  import LedgerAudit

  /** One charge and the size it was made at. */
  datatype Leg = Leg(qty: real, charge: Charge)

  function Spans(legs: seq<Leg>): (cs: seq<Charge>)
    ensures |cs| == |legs|
  {
    seq(|legs|, i requires 0 <= i < |legs| => legs[i].charge)
  }

  function Billed(legs: seq<Leg>): real {
    if legs == [] then 0.0
    else
      var l := legs[|legs| - 1];
      Billed(legs[..|legs| - 1]) + DailyCost(l.qty, l.charge.price, l.charge.rate, l.charge.to - l.charge.from)
  }

  /** The charge an accrual makes on an open trade, if it makes one. */
  function NewLeg(o: Option<OpenTrade>, c: Call): seq<Leg> {
    if o.Some? && Charges(o.value, c) then [Leg(o.value.qty, Charge(o.value.lastFundingAt, c.at, c.price, c.rate))]
    else []
  }

  /** The fill leaves the open trade open: it is ineffective, adds to it or closes part of it. */
  predicate Continues(o: Option<OpenTrade>, f: Fill) {
    o.Some? && Apply(o, f, 0.0, false).closed.None?
  }

  /** The charges made so far on the trade open after the events, each at the size held when it was made. */
  function LegsOf(j: LedgerAudit.Journal, es: seq<LedgerAudit.Event>): seq<Leg> {
    if es == [] then []
    else
      var front := es[..|es| - 1];
      var was, legs := LedgerAudit.Run(j, front), LegsOf(j, front);
      match es[|es| - 1]
      case Mark(now, price, rate) => legs + NewLeg(was.ledger.open_, Call(now, price, rate))
      case Fills(f, ctx, byStop) =>
        if !Fresh(was.ledger, f) then legs
        else if Continues(LedgerAudit.Before(was, f, ctx), f)
        then legs + NewLeg(was.ledger.open_, Call(f.time, f.price, ctx.fundingDailyRate))
        else []
  }

  /** The charges of the trade open before the last event, including the one that event itself makes. */
  function LegsThrough(j: LedgerAudit.Journal, front: seq<LedgerAudit.Event>, e: LedgerAudit.Event): seq<Leg> {
    var was := LedgerAudit.Run(j, front);
    var c := match e
      case Mark(now, price, rate) => Call(now, price, rate)
      case Fills(f, ctx, _) => Call(f.time, f.price, ctx.fundingDailyRate);
    LegsOf(j, front) + NewLeg(was.ledger.open_, c)
  }

  /** The charges of every trade the events closed, as they stood at the fill that closed it. */
  function ClosedLegs(j: LedgerAudit.Journal, es: seq<LedgerAudit.Event>): seq<seq<Leg>> {
    if es == [] then []
    else
      var front := es[..|es| - 1];
      ClosedLegs(j, front)
      + if |LedgerAudit.Run(j, es).closed| > |LedgerAudit.Run(j, front).closed|
        then [LegsThrough(j, front, es[|es| - 1])] else []
  }

  /**
   * The charges lie end to end from the trade's entry to its last charge, only a short carries any, and together they
   * are its accrued funding.
   */
  predicate Funded(o: OpenTrade, legs: seq<Leg>) {
    && o.record.entryTime > 0 && Tile(Spans(legs), o.record.entryTime, o.lastFundingAt)
    && o.lastFundingAt >= o.record.entryTime
    && o.accruedFunding == Billed(legs) >= 0.0
    && (o.qty >= 0.0 ==> legs == [])
    && forall l :: l in legs ==> l.qty < 0.0
  }

  /** An accrual adds its charge to the end. */
  lemma AccrualExtends(o: OpenTrade, legs: seq<Leg>, c: Call)
    requires Funded(o, legs)
    ensures var a := Accrued(o, c.at, c.price, c.rate);
      && Funded(a, legs + NewLeg(Some(o), c))
      && a == o.(accruedFunding := a.accruedFunding, lastFundingAt := a.lastFundingAt)
  {
    hide Accrued, DailyCost, Tile;
    AccrualFrame(o, c);
    var more := NewLeg(Some(o), c);
    if more == [] {
      assert legs + more == legs;
    } else {
      var all := legs + more;
      ChargeIsPositive(o.qty, c.price, c.rate, c.at - o.lastFundingAt);
      assert all[..|all| - 1] == legs;
      assert Spans(all) == Spans(legs) + [more[0].charge];
      OneMoreCharge(Spans(legs), more[0].charge, 0.0, o.record.entryTime);
    }
  }

  lemma FundingIgnoresTheRest(o: OpenTrade, p: OpenTrade, legs: seq<Leg>)
    requires Funded(o, legs)
    requires p.record.entryTime == o.record.entryTime && p.lastFundingAt == o.lastFundingAt
    requires p.accruedFunding == o.accruedFunding && (o.qty < 0.0 || p.qty >= 0.0)
    requires o.qty < 0.0 ==> p.qty < 0.0
    ensures Funded(p, legs)
  {
    hide Tile, Billed;
  }

  /** What a fill leaves of a trade: the same trade with its funding and side, closed or open, and perhaps a new one. */
  lemma FillKeepsFunding(o: OpenTrade, f: Fill, initialStop: real, byStop: bool, legs: seq<Leg>)
    requires Funded(o, legs) && o.qty != 0.0 && f.time > 0
    ensures var r := Apply(Some(o), f, initialStop, byStop);
      && r.closed.None? == Continues(Some(o), f)
      && (r.closed.None? ==> r.open_.Some? && r.open_.value.qty != 0.0 && Funded(r.open_.value, legs))
      && (r.closed.Some? ==> Funded(r.closed.value, legs))
      && (r.closed.Some? && r.open_.Some? ==> r.open_.value.qty != 0.0 && Funded(r.open_.value, []))
  {
    hide FeeUsd, CloseFee, CloseGross, CloseNotional, AverageCost, Tile, Billed, Funded;
    var r := Apply(Some(o), f, initialStop, byStop);
    if r.closed.None? {
      FundingIgnoresTheRest(o, r.open_.value, legs);
    } else {
      FundingIgnoresTheRest(o, r.closed.value, legs);
      if r.open_.Some? {
        NewTradeIsFunded(Excess(o, f), initialStop);
      }
    }
  }

  lemma NewTradeIsFunded(f: Fill, initialStop: real)
    requires f.time > 0
    ensures Funded(Started(f, initialStop), [])
  {
    hide FeeUsd;
  }

  /** The open trade is funded by these charges, and every closed one by its own. */
  predicate AllFunded(j: LedgerAudit.Journal, legs: seq<Leg>, closed: seq<seq<Leg>>) {
    && (j.ledger.open_.Some? ==> j.ledger.open_.value.qty != 0.0 && Funded(j.ledger.open_.value, legs))
    && |closed| == |j.closed|
    && forall k :: 0 <= k < |closed| ==> Funded(j.closed[k].trade, closed[k])
  }

  lemma MarkKeepsFunding(
    j: LedgerAudit.Journal, now: Time, price: real, rate: real, legs: seq<Leg>, closed: seq<seq<Leg>>)
    requires AllFunded(j, legs, closed)
    ensures AllFunded(LedgerAudit.Step(j, LedgerAudit.Mark(now, price, rate)),
                      legs + NewLeg(j.ledger.open_, Call(now, price, rate)), closed)
  {
    hide Funded, Accrued;
    if j.ledger.open_.Some? {
      var o := j.ledger.open_.value;
      AccrualExtends(o, legs, Call(now, price, rate));
      if price > 0.0 {
        var a := Accrued(o, now, price, rate);
        FundingIgnoresTheRest(a, Excursion(a, price), legs + NewLeg(Some(o), Call(now, price, rate)));
      } else {
        assert legs + NewLeg(Some(o), Call(now, price, rate)) == legs;
      }
    }
  }

  lemma TakeKeepsFunding(
    j: LedgerAudit.Journal, f: Fill, ctx: Context, byStop: bool, legs: seq<Leg>, closed: seq<seq<Leg>>)
    requires AllFunded(j, legs, closed) && Fresh(j.ledger, f) && f.time > 0
    ensures var n := LedgerAudit.Step(j, LedgerAudit.Fills(f, ctx, byStop));
      var through := legs + NewLeg(j.ledger.open_, Call(f.time, f.price, ctx.fundingDailyRate));
      AllFunded(n, if Continues(LedgerAudit.Before(j, f, ctx), f) then through else [],
                closed + if |n.closed| > |j.closed| then [through] else [])
  {
    hide Funded, Accrued, Apply;
    var before := LedgerAudit.Before(j, f, ctx);
    var r := Apply(before, f, ctx.initialStop, byStop || f.isStop);
    if j.ledger.open_.Some? {
      var billed := legs + NewLeg(j.ledger.open_, Call(f.time, f.price, ctx.fundingDailyRate));
      AccrualExtends(j.ledger.open_.value, legs, Call(f.time, f.price, ctx.fundingDailyRate));
      FillKeepsFunding(before.value, f, ctx.initialStop, byStop || f.isStop, billed);
    } else {
      FirstFill(f, ctx.initialStop, byStop || f.isStop);
    }
  }

  lemma FirstFill(f: Fill, initialStop: real, byStop: bool)
    requires f.time > 0
    ensures var r := Apply(None, f, initialStop, byStop);
      r.closed.None? && (r.open_.Some? ==> r.open_.value.qty != 0.0 && Funded(r.open_.value, []))
  {
    NewTradeIsFunded(f, initialStop);
    hide Funded;
  }

  /**
   * Over every run of fills and marks from a flat ledger, through adds, partial closes and reversals: the charges of
   * the open trade, each at the size then held, cover exactly the time from its entry to its last charge and sum to its
   * funding; a long carries none; and the same holds of every trade the run closed, with the charges it had then.
   */
  lemma {:induction false} FundingCoversTheLife(j: LedgerAudit.Journal, es: seq<LedgerAudit.Event>)
    requires j.ledger.open_.None? && j.closed == []
    requires forall k :: 0 <= k < |es| && es[k].Fills? ==> es[k].f.time > 0
    ensures AllFunded(LedgerAudit.Run(j, es), LegsOf(j, es), ClosedLegs(j, es))
  {
    hide Funded, LedgerAudit.Step, Fresh, Continues, LedgerAudit.Before, NewLeg;
    if es != [] {
      var front := es[..|es| - 1];
      FundingCoversTheLife(j, front);
      var was := LedgerAudit.Run(j, front);
      match es[|es| - 1]
      case Mark(now, price, rate) =>
        MarkKeepsFunding(was, now, price, rate, LegsOf(j, front), ClosedLegs(j, front));
        assert ClosedLegs(j, es) == ClosedLegs(j, front) by { MarkClosesNothing(was, now, price, rate); }
      case Fills(f, ctx, byStop) =>
        if Fresh(was.ledger, f) {
          TakeKeepsFunding(was, f, ctx, byStop, LegsOf(j, front), ClosedLegs(j, front));
        } else {
          SeenFillDoesNothing(was, f, ctx, byStop);
          assert ClosedLegs(j, es) == ClosedLegs(j, front);
        }
    }
  }

  lemma MarkClosesNothing(j: LedgerAudit.Journal, now: Time, price: real, rate: real)
    ensures LedgerAudit.Step(j, LedgerAudit.Mark(now, price, rate)).closed == j.closed
  {
  }

  lemma SeenFillDoesNothing(j: LedgerAudit.Journal, f: Fill, ctx: Context, byStop: bool)
    requires !Fresh(j.ledger, f)
    ensures LedgerAudit.Step(j, LedgerAudit.Fills(f, ctx, byStop)) == j
  {
  }
}
