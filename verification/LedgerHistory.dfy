/** A trade is determined by the fills that entered it and the market marks it lived through. */
module LedgerHistory {
  import opened Numbers
  import opened Domain
  import opened Ledger
  import LedgerAudit

  /** What entered at a price. */
  datatype Entry = Entry(amount: real, price: real)

  /** A trade's first fill, the stop then in force, what entered it, and its unrealised results at the marks. */
  datatype Life = Life(start: Fill, stop: real, entries: seq<Entry>, marks: seq<real>)

  const NO_LIFE := Life(Fill(0, 0, 0.0, 0.0, 0.0, FaceValue, false), 0.0, [], [])

  function Entered(es: seq<Entry>): real {
    if es == [] then 0.0 else Entered(es[..|es| - 1]) + Abs(es[|es| - 1].amount)
  }

  /** What the entries would lose at the stop. */
  function AtRisk(es: seq<Entry>, stop: real): real {
    if es == [] then 0.0
    else AtRisk(es[..|es| - 1], stop) + Times(Abs(es[|es| - 1].amount), Abs(es[|es| - 1].price - stop))
  }

  /** The greatest of zero and the marks, and the least. */
  function Best(marks: seq<real>): real {
    if marks == [] then 0.0 else Max(Best(marks[..|marks| - 1]), marks[|marks| - 1])
  }

  function Worst(marks: seq<real>): real {
    if marks == [] then 0.0 else Min(Worst(marks[..|marks| - 1]), marks[|marks| - 1])
  }

  /** The life of the trade that is open after a fill on a position of this quantity. */
  function AfterFill(so: Life, open_: Option<OpenTrade>, f: Fill, stop: real): Life {
    if f.amount == 0.0 || f.price <= 0.0 then so
    else if open_.None? then Life(f, stop, [Entry(f.amount, f.price)], [])
    else
      var q := open_.value.qty;
      if SameSign(q, f.amount) then so.(entries := so.entries + [Entry(f.amount, f.price)])
      else if Abs(q + f.amount) <= 1e-9 then NO_LIFE
      else if SameSign(q, q + f.amount) then so
      else Life(f, stop, [Entry(q + f.amount, f.price)], [])
  }

  function LifeAfter(j: LedgerAudit.Journal, e: LedgerAudit.Event, so: Life): Life {
    var open_ := j.ledger.open_;
    match e
    case Mark(_, price, _) =>
      if open_.None? || price <= 0.0 then so
      else so.(marks := so.marks + [Times(open_.value.qty, price - open_.value.avg)])
    case Fills(f, ctx, _) =>
      if f.id == 0 || f.id in j.ledger.seen then so else AfterFill(so, open_, f, ctx.initialStop)
  }

  /** The life so far of the trade open after the events. */
  function LifeOf(j: LedgerAudit.Journal, es: seq<LedgerAudit.Event>): Life {
    if es == [] then NO_LIFE
    else LifeAfter(LedgerAudit.Run(j, es[..|es| - 1]), es[|es| - 1], LifeOf(j, es[..|es| - 1]))
  }

  /** The lives of the trades the events closed, as they were when they closed. */
  function ClosedLives(j: LedgerAudit.Journal, es: seq<LedgerAudit.Event>): seq<Life> {
    if es == [] then []
    else
      var front := es[..|es| - 1];
      ClosedLives(j, front)
      + if |LedgerAudit.Run(j, es).closed| > |LedgerAudit.Run(j, front).closed| then [LifeOf(j, front)] else []
  }

  /** The trade is that of its first fill, and its size, risk and excursions are those of its entries and marks. */
  predicate Lived(o: OpenTrade, l: Life) {
    var r := o.record;
    && l.entries != [] && SameSign(l.entries[0].amount, if r.long then 1.0 else -1.0)
    && r.id == l.start.id && r.entryTime == l.start.time && r.initialStop == l.stop
    && o.entryQuantity == r.quantity == Entered(l.entries) && o.initialRisk == AtRisk(l.entries, l.stop)
    && r.entryVwap == o.avg && r.mfe == Best(l.marks) && r.mae == Worst(l.marks)
  }

  /** Nothing is recorded of an exit yet. */
  predicate Unfinished(o: OpenTrade) {
    var r := o.record;
    && r.exitTime == 0 && !r.byStop && r.exitVwap == 0.0
    && r.net == 0.0 && r.fees == 0.0 && r.funding == 0.0 && r.rMultiple == 0.0
  }

  predicate OpenLived(o: Option<OpenTrade>, l: Life) {
    o.Some? ==> o.value.qty != 0.0 && Unfinished(o.value) && Lived(o.value, l)
  }

  lemma OneMoreEntry(es: seq<Entry>, e: Entry, stop: real)
    ensures Entered(es + [e]) == Entered(es) + Abs(e.amount)
    ensures AtRisk(es + [e], stop) == AtRisk(es, stop) + Times(Abs(e.amount), Abs(e.price - stop))
  {
    assert (es + [e])[..|es|] == es;
  }

  lemma OneMoreMark(ms: seq<real>, m: real)
    ensures Best(ms + [m]) == Max(Best(ms), m) && Worst(ms + [m]) == Min(Worst(ms), m)
  {
    assert (ms + [m])[..|ms|] == ms;
  }

  lemma StartLives(f: Fill, g: Fill, stop: real)
    requires f.amount != 0.0 && f.id == g.id && f.time == g.time
    ensures Lived(Started(f, stop), Life(g, stop, [Entry(f.amount, f.price)], []))
  {
    hide FeeUsd;
    OneMoreEntry([], Entry(f.amount, f.price), stop);
    assert [] + [Entry(f.amount, f.price)] == [Entry(f.amount, f.price)];
  }

  lemma AddLives(o: OpenTrade, f: Fill, l: Life)
    requires Lived(o, l) && SameSign(o.qty, f.amount)
    ensures Lived(Added(o, f), l.(entries := l.entries + [Entry(f.amount, f.price)]))
  {
    hide FeeUsd, AverageCost;
    OneMoreEntry(l.entries, Entry(f.amount, f.price), l.stop);
  }

  lemma RestLives(o: OpenTrade, f: Fill, l: Life, byStop: bool)
    requires Lived(o, l)
    ensures Lived(Booked(o, f), l) && Lived(Booked(o, f).(qty := o.qty + f.amount), l)
    ensures Unfinished(o) ==> Unfinished(Booked(o, f))
    ensures Lived(Finished(Booked(o, f), f, byStop), l)
  {
    hide CloseFee, CloseGross, CloseNotional, FeeUsd;
  }

  lemma FillLives(o: Option<OpenTrade>, f: Fill, stop: real, byStop: bool, l: Life)
    requires OpenLived(o, l)
    ensures var r := Apply(o, f, stop, byStop);
      OpenLived(r.open_, AfterFill(l, o, f, stop)) && (r.closed.Some? ==> Lived(r.closed.value, l))
  {
    hide Lived, Started, Added, Booked, Finished, CloseFee, FeeUsd;
    if Effective(f) {
      if o.None? {
        StartLives(f, f, stop);
        StartedQuantity(f, stop);
      } else if SameSign(o.value.qty, f.amount) {
        AddLives(o.value, f, l);
        AddedQuantity(o.value, f);
      } else {
        RestLives(o.value, f, l, byStop);
        StartedQuantity(Excess(o.value, f), stop);
        if o.value.qty + f.amount != 0.0 {
          StartLives(Excess(o.value, f), f, stop);
        }
      }
    }
  }

  lemma StartedQuantity(f: Fill, stop: real)
    ensures Started(f, stop).qty == f.amount && Unfinished(Started(f, stop))
  {
    hide FeeUsd;
  }

  lemma AddedQuantity(o: OpenTrade, f: Fill)
    requires SameSign(o.qty, f.amount)
    ensures Added(o, f).qty == o.qty + f.amount && (Unfinished(o) ==> Unfinished(Added(o, f)))
  {
    hide FeeUsd, AverageCost;
  }

  lemma AccrualLives(o: OpenTrade, at: Time, price: real, rate: real, l: Life)
    requires Lived(o, l)
    ensures Lived(Accrued(o, at, price, rate), l)
    ensures Accrued(o, at, price, rate).qty == o.qty && Accrued(o, at, price, rate).avg == o.avg
    ensures Unfinished(o) ==> Unfinished(Accrued(o, at, price, rate))
  {
    hide FundingCharge;
  }

  lemma MarkLives(o: OpenTrade, price: real, l: Life)
    requires Lived(o, l)
    ensures Lived(Excursion(o, price), l.(marks := l.marks + [Times(o.qty, price - o.avg)]))
  {
    hide Best, Worst, Entered, AtRisk, Times;
    OneMoreMark(l.marks, Times(o.qty, price - o.avg));
    ExcursionIs(o, price);
  }

  lemma ExcursionIs(o: OpenTrade, price: real)
    ensures var u, r := Times(o.qty, price - o.avg), o.record;
      Excursion(o, price) == o.(record := r.(mfe := Max(r.mfe, u), mae := Min(r.mae, u)))
  {
  }

  /** The open trade and every closed one, with their lives. */
  predicate AllLived(j: LedgerAudit.Journal, l: Life, closed: seq<Life>) {
    OpenLived(j.ledger.open_, l) && |closed| == |j.closed|
    && forall k :: 0 <= k < |closed| ==> Lived(j.closed[k].trade, closed[k])
  }

  /**
   * Over every run of fills and marks from a flat ledger, the open trade and every closed one are those of their first
   * fill, with the size and the initial risk of exactly the fills that entered them, measured to the stop of the first,
   * and the excursions of the marks they lived through.
   */
  lemma {:induction false} TradesAreTheirFills(j: LedgerAudit.Journal, es: seq<LedgerAudit.Event>)
    requires j.ledger.open_.None? && j.closed == []
    ensures AllLived(LedgerAudit.Run(j, es), LifeOf(j, es), ClosedLives(j, es))
  {
    hide Lived, LedgerAudit.Step, AfterFill;
    if es != [] {
      var front := es[..|es| - 1];
      TradesAreTheirFills(j, front);
      StepLives(LedgerAudit.Run(j, front), es[|es| - 1], LifeOf(j, front), ClosedLives(j, front));
    }
  }

  lemma StepLives(j: LedgerAudit.Journal, e: LedgerAudit.Event, so: Life, closed: seq<Life>)
    requires AllLived(j, so, closed)
    ensures var n := LedgerAudit.Step(j, e);
      AllLived(n, LifeAfter(j, e, so), closed + if |n.closed| > |j.closed| then [so] else [])
  {
    hide Lived, Apply, Accrued, AfterFill, Excursion;
    match e
    case Mark(now, price, rate) =>
      if j.ledger.open_.Some? && price > 0.0 {
        AccrualLives(j.ledger.open_.value, now, price, rate, so);
        MarkLives(Accrued(j.ledger.open_.value, now, price, rate), price, so);
        ExcursionKeepsQuantity(Accrued(j.ledger.open_.value, now, price, rate), price);
      }
    case Fills(f, ctx, byStop) =>
      if Fresh(j.ledger, f) {
        var o := LedgerAudit.Before(j, f, ctx);
        if o.Some? {
          AccrualLives(j.ledger.open_.value, f.time, f.price, ctx.fundingDailyRate, so);
        }
        FillLives(o, f, ctx.initialStop, byStop || f.isStop, so);
        SameQuantitySameLife(so, o, j.ledger.open_, f, ctx.initialStop);
      }
  }

  lemma ExcursionKeepsQuantity(o: OpenTrade, price: real)
    ensures Excursion(o, price).qty == o.qty && (Unfinished(o) ==> Unfinished(Excursion(o, price)))
  {
  }

  lemma SameQuantitySameLife(so: Life, o: Option<OpenTrade>, p: Option<OpenTrade>, f: Fill, stop: real)
    requires o.Some? == p.Some? && (o.Some? ==> o.value.qty == p.value.qty)
    ensures AfterFill(so, o, f, stop) == AfterFill(so, p, f, stop)
  {
  }

  // ---- From when on fills are asked for -------------------------------------------------------------

  /** The event at k is a fill the ledger has not taken before. */
  predicate TakenAt(j: LedgerAudit.Journal, es: seq<LedgerAudit.Event>, k: nat)
    requires k < |es|
  {
    es[k].Fills? && es[k].f.id != 0 && es[k].f.id !in LedgerAudit.Run(j, es[..k]).ledger.seen
  }

  /** The date from which fills are asked for again is that of the latest fill taken, in whatever order they came. */
  lemma {:induction false} LastFillIsTheLatest(j: LedgerAudit.Journal, es: seq<LedgerAudit.Event>)
    ensures var last := LedgerAudit.Run(j, es).ledger.lastFillAt;
      && last >= j.ledger.lastFillAt
      && (forall k :: 0 <= k < |es| && TakenAt(j, es, k) ==> es[k].f.time <= last)
      && (last == j.ledger.lastFillAt || exists k :: 0 <= k < |es| && TakenAt(j, es, k) && es[k].f.time == last)
  {
    hide Apply, AccruedIfOpen, Marked;
    if es != [] {
      var front, n := es[..|es| - 1], |es| - 1;
      LastFillIsTheLatest(j, front);
      if es[n].Mark? {
        MarkKeepsDate(LedgerAudit.Run(j, front), es[n]);
      }
      assert es[..n] == front;
      forall k | 0 <= k < n ensures TakenAt(j, es, k) == TakenAt(j, front, k) && es[k] == front[k] {
        assert es[..k] == front[..k];
      }
      assert TakenAt(j, es, n) ==> es[n].f.time <= LedgerAudit.Run(j, es).ledger.lastFillAt;
    }
  }

  lemma MarkKeepsDate(j: LedgerAudit.Journal, e: LedgerAudit.Event)
    requires e.Mark?
    ensures LedgerAudit.Step(j, e).ledger.lastFillAt == j.ledger.lastFillAt
  {
    hide Accrued, Excursion;
  }
}
