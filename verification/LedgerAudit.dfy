/**
 * Conservation laws of the fill ledger over arbitrary runs of fills and market marks: money, quantity and fees
 * balance exactly once the sub-1e-9 residue that a completed trade drops is accounted for.
 */
module LedgerAudit {
  import opened Numbers
  import opened Domain
  import opened Ledger

  /** A closed trade together with the notional of everything that entered it. */
  datatype Closed = Closed(trade: OpenTrade, entryNotional: real)

  /** The ledger with its history of closed trades and the entry notional of the open one. */
  datatype Journal = Journal(ledger: State, closed: seq<Closed>, entryNotional: real)

  datatype Event = Fills(f: Fill, ctx: Context, byStop: bool) | Mark(now: Time, price: real, dailyRate: real)

  function Notional(amount: real, price: real): real {
    Abs(amount) * price
  }

  function EntryAfter(o: Option<OpenTrade>, f: Fill, entry: real): real {
    if !Effective(f) then entry
    else if o.None? then Notional(f.amount, f.price)
    else if SameSign(o.value.qty, f.amount) then entry + Notional(f.amount, f.price)
    else if Reverses(o.value, f) then Notional(o.value.qty + f.amount, f.price)
    else entry
  }

  function Before(j: Journal, f: Fill, ctx: Context): Option<OpenTrade> {
    AccruedIfOpen(j.ledger.open_, f.time, f.price, ctx.fundingDailyRate)
  }

  function Step(j: Journal, e: Event): Journal {
    match e
    case Mark(now, price, rate) => j.(ledger := Marked(j.ledger, now, price, rate))
    case Fills(f, ctx, byStop) =>
      if !Fresh(j.ledger, f) then j
      else
        var r := Take(j.ledger, f, ctx, byStop);
        Journal(r.state,
                j.closed + seq(|r.closed|, i requires 0 <= i < |r.closed| => Closed(r.closed[i], j.entryNotional)),
                EntryAfter(Before(j, f, ctx), f, j.entryNotional))
  }

  function Run(j: Journal, es: seq<Event>): Journal {
    if es == [] then j else Step(Run(j, es[..|es| - 1]), es[|es| - 1])
  }

  // ---- Balances ---------------------------------------------------------------------------------

  function Gross(c: seq<Closed>): real {
    if c == [] then 0.0 else Gross(c[..|c| - 1]) + c[|c| - 1].trade.record.gross
  }

  function Fees(c: seq<Closed>): real {
    if c == [] then 0.0 else Fees(c[..|c| - 1]) + c[|c| - 1].trade.record.fees
  }

  /** What a fee in dollars, or taken for dollars, costs; and what one in metal costs at the price of its fill. */
  function DollarFee(f: Fill): real {
    if f.feeCurrency == Metal then 0.0 else Abs(f.fee)
  }

  function MetalFee(f: Fill): real {
    if f.feeCurrency == Metal then Abs(f.fee) * f.price else 0.0
  }

  function Charge(f: Fill): real {
    DollarFee(f) + MetalFee(f)
  }

  function CostBasis(o: OpenTrade): real {
    o.qty * o.avg
  }

  function OpenGross(o: Option<OpenTrade>): real {
    if o.None? then 0.0 else o.value.record.gross - CostBasis(o.value)
  }

  function OpenQty(o: Option<OpenTrade>): real {
    if o.None? then 0.0 else o.value.qty
  }

  function OpenFees(o: Option<OpenTrade>): real {
    if o.None? then 0.0 else o.value.fees
  }

  // ---- What a completed trade leaves behind -----------------------------------------------------

  predicate DropsResidue(o: Option<OpenTrade>, f: Fill) {
    Effective(f) && o.Some? && !SameSign(o.value.qty, f.amount) && !Reverses(o.value, f) && Completes(o.value, f)
  }

  /** The signed quantity forgotten when a trade completes within 1e-9 of flat. */
  function Residue(o: Option<OpenTrade>, f: Fill): real {
    if DropsResidue(o, f) then o.value.qty + f.amount else 0.0
  }

  /** What that quantity was worth: at cost when left over, at the fill price when overshot. */
  function ResidueValue(o: Option<OpenTrade>, f: Fill): real {
    Residue(o, f) * (if o.Some? && SameSign(Residue(o, f), o.value.qty) then o.value.avg else f.price)
  }

  /** The part of the fee that falls on the quantity by which a completing fill overshoots. */
  function ResidueFee(o: Option<OpenTrade>, f: Fill): real {
    if DropsResidue(o, f) then Charge(f) * Max(0.0, Abs(f.amount) - Abs(o.value.qty)) / Abs(f.amount) else 0.0
  }

  // ---- The open trade's own balance -------------------------------------------------------------

  /** +1 for a long, -1 for a short. */
  function Direction(long: bool): real {
    if long then 1.0 else -1.0
  }

  function Profit(long: bool, exits: real, entries: real): real {
    if long then exits - entries else entries - exits
  }

  predicate Balanced(o: OpenTrade, entry: real) {
    && o.qty != 0.0 && o.record.long == (o.qty > 0.0)
    && o.entryQuantity - o.exitQuantity == Abs(o.qty) && o.exitQuantity >= 0.0
    && o.record.quantity == o.entryQuantity
    && o.record.gross == Profit(o.record.long, o.exitNotional, entry) + CostBasis(o)
  }

  predicate OpenBalanced(o: Option<OpenTrade>, entry: real) {
    o.Some? ==> Balanced(o.value, entry)
  }

  /** What never entered the exits of a closed trade. */
  function Shortfall(c: Closed): real {
    c.trade.entryQuantity - c.trade.exitQuantity
  }

  /**
   * A closed trade: entries and exits match up to a shortfall of at most 1e-9, the gross result is the exit
   * notional against the entry notional (with any shortfall still at cost), net is gross less fees and funding, and
   * the R multiple measures it against the initial risk.
   */
  predicate Settled(c: Closed) {
    var t, r := c.trade, c.trade.record;
    && 0.0 <= Shortfall(c) <= 1e-9 && r.quantity == t.entryQuantity && t.exitQuantity > 0.0
    && r.gross == Profit(r.long, t.exitNotional, c.entryNotional) + Direction(r.long) * (Shortfall(c) * t.avg)
    && r.exitVwap * t.exitQuantity == t.exitNotional
    && r.fees == t.fees && r.funding == t.accruedFunding && r.net == r.gross - r.fees - r.funding
    && (t.initialRisk > 0.0 ==> r.rMultiple * t.initialRisk == r.net)
  }

  // ---- One fill ---------------------------------------------------------------------------------

  lemma AverageKeepsCost(avg: real, before: real, price: real, add: real)
    requires before + add != 0.0
    ensures AverageCost(avg, before, price, add) * (before + add) == avg * before + price * add
  {
  }

  lemma WholeFee(fee: real, q: real)
    requires q > 0.0
    ensures fee * q / q == fee
  {
  }

  lemma AddBalances(o: OpenTrade, f: Fill, entry: real)
    requires Balanced(o, entry) && SameSign(o.qty, f.amount)
    ensures Balanced(Added(o, f), entry + Notional(f.amount, f.price))
    ensures CostBasis(Added(o, f)) == CostBasis(o) + f.amount * f.price
  {
    hide FeeUsd;
    AverageKeepsCost(o.avg, Abs(o.qty), f.price, Abs(f.amount));
    var avg := AverageCost(o.avg, Abs(o.qty), f.price, Abs(f.amount));
    CostOfSum(avg, o.qty, f.amount, o.avg, f.price);
  }

  lemma CostOfSum(avg: real, qty: real, amount: real, was: real, price: real)
    requires SameSign(qty, amount)
    requires avg * (Abs(qty) + Abs(amount)) == was * Abs(qty) + price * Abs(amount)
    ensures (qty + amount) * avg == qty * was + amount * price
    ensures qty > 0.0 ==> Abs(amount) * price == amount * price
    ensures qty < 0.0 ==> Abs(amount) * price == -(amount * price)
  {
    if qty > 0.0 {
      assert avg * (qty + amount) == was * qty + price * amount;
    } else {
      assert avg * (-qty - amount) == was * -qty + price * -amount;
    }
  }

  /** Does the fill close no more than the position holds? */
  predicate Within(o: OpenTrade, f: Fill) {
    Abs(f.amount) <= Abs(o.qty)
  }

  /** The gross booked by a closing fill, in signed quantities. */
  lemma CloseGrossSigned(o: OpenTrade, f: Fill)
    requires o.qty != 0.0 && f.amount != 0.0 && !SameSign(o.qty, f.amount)
    ensures CloseGross(o, f) == if Within(o, f) then f.amount * o.avg - f.amount * f.price
                                else o.qty * f.price - o.qty * o.avg
    ensures var cash := if Within(o, f) then -(f.amount * f.price) else o.qty * f.price;
      CloseNotional(o, f) == if o.qty > 0.0 then cash else -cash
  {
    var c := CloseQuantity(o, f);
    Expand(c, f.price, o.avg);
    Expand(c, o.avg, f.price);
    if Within(o, f) {
      Negate(f.amount, f.price);
      Negate(f.amount, o.avg);
      assert c == if o.qty > 0.0 then -f.amount else f.amount;
    } else {
      Negate(o.qty, f.price);
      Negate(o.qty, o.avg);
      assert c == if o.qty > 0.0 then o.qty else -o.qty;
    }
  }

  predicate Closes(o: OpenTrade, f: Fill) {
    o.qty != 0.0 && f.amount != 0.0 && !SameSign(o.qty, f.amount)
  }

  lemma ReversalMovesMoney(o: OpenTrade, f: Fill)
    requires Closes(o, f) && Reverses(o, f)
    ensures Booked(o, f).record.gross - (o.qty + f.amount) * f.price
         == o.record.gross - CostBasis(o) - f.amount * f.price
  {
    hide FeeUsd, CloseFee, CloseGross, CloseNotional;
    CloseGrossSigned(o, f);
    Distribute(o.qty, f.amount, f.price);
  }

  lemma CompletionMovesMoney(o: OpenTrade, f: Fill)
    requires Closes(o, f) && Effective(f) && !Reverses(o, f) && Completes(o, f)
    ensures Booked(o, f).record.gross
         == o.record.gross - CostBasis(o) - f.amount * f.price + ResidueValue(Some(o), f)
  {
    hide FeeUsd, CloseFee, CloseGross, CloseNotional;
    CloseGrossSigned(o, f);
    Distribute(o.qty, f.amount, f.price);
    Distribute(o.qty, f.amount, o.avg);
  }

  lemma PartialMovesMoney(o: OpenTrade, f: Fill)
    requires Closes(o, f) && !Reverses(o, f) && !Completes(o, f)
    ensures Booked(o, f).record.gross - (o.qty + f.amount) * o.avg
         == o.record.gross - CostBasis(o) - f.amount * f.price
  {
    hide FeeUsd, CloseFee, CloseGross, CloseNotional;
    CloseGrossSigned(o, f);
    Distribute(o.qty, f.amount, o.avg);
  }

  function ClosedGross(o: Option<OpenTrade>): real {
    if o.Some? then o.value.record.gross else 0.0
  }

  /** Money: what one fill pays equals what it moves between realised gross, cost basis and dropped residue. */
  lemma FillMovesMoney(o: Option<OpenTrade>, f: Fill, initialStop: real, byStop: bool, entry: real)
    requires OpenBalanced(o, entry)
    ensures var r := Apply(o, f, initialStop, byStop);
      OpenGross(r.open_) + ClosedGross(r.closed)
      == OpenGross(o) - (if Effective(f) then f.amount * f.price else 0.0) + ResidueValue(o, f)
  {
    hide FeeUsd, CloseFee, AverageCost, Booked, Added;
    if Effective(f) && o.Some? {
      var t := o.value;
      if SameSign(t.qty, f.amount) {
        AddBalances(t, f, entry);
        AddedFrame(t, f);
      } else if Reverses(t, f) {
        ReversalMovesMoney(t, f);
      } else if Completes(t, f) {
        CompletionMovesMoney(t, f);
      } else {
        PartialMovesMoney(t, f);
        BookedFrame(t, f);
      }
    }
  }

  lemma AddedFrame(o: OpenTrade, f: Fill)
    requires SameSign(o.qty, f.amount)
    ensures Added(o, f).record.gross == o.record.gross && Added(o, f).qty == o.qty + f.amount
    ensures Added(o, f).fees == o.fees + FeeUsd(f)
  {
    hide AverageCost, FeeUsd;
  }

  lemma BookedFrame(o: OpenTrade, f: Fill)
    ensures Booked(o, f).avg == o.avg && Booked(o, f).qty == o.qty && Booked(o, f).fees == o.fees + CloseFee(o, f)
  {
    hide CloseFee;
  }

  /** Quantity: the open position follows the fills, short of what a completed trade drops. */
  lemma FillMovesQuantity(o: Option<OpenTrade>, f: Fill, initialStop: real, byStop: bool)
    ensures OpenQty(Apply(o, f, initialStop, byStop).open_)
         == OpenQty(o) + (if Effective(f) then f.amount else 0.0) - Residue(o, f)
    ensures Abs(Residue(o, f)) <= (if Apply(o, f, initialStop, byStop).closed.Some? then 1e-9 else 0.0)
  {
    hide FeeUsd, CloseFee, AverageCost, Booked, Added;
    if o.Some? && SameSign(o.value.qty, f.amount) {
      AddedFrame(o.value, f);
    }
  }

  /** The closing share of a fee is the whole fee unless the fill overshoots. */
  lemma CloseFeeShare(o: OpenTrade, f: Fill)
    requires Closes(o, f) && f.price > 0.0
    ensures Within(o, f) ==> CloseFee(o, f) == FeeUsd(f)
    ensures 0.0 <= CloseFee(o, f) <= FeeUsd(f)
    ensures !Within(o, f) ==>
      FeeUsd(f) - CloseFee(o, f) == Share(FeeUsd(f), Abs(f.amount) - Abs(o.qty), Abs(f.amount)) >= 0.0
  {
    hide FeeUsd, Share;
    var fee, a := FeeUsd(f), Abs(f.amount);
    ShareOf(fee, CloseQuantity(o, f), a);
    RestOf(fee, Abs(o.qty), a);
    if !Within(o, f) {
      ShareOf(fee, a - Abs(o.qty), a);
    }
  }

  lemma RestOf(fee: real, c: real, a: real)
    requires a > 0.0
    ensures fee - Share(fee, c, a) == Share(fee, a - c, a)
  {
    Expand(fee, a, c);
    WholeFee(fee, a);
    var x, y := fee * a, fee * c;
    assert (x - y) / a == x / a - y / a;
  }

  lemma ShareOf(fee: real, c: real, a: real)
    requires fee >= 0.0 && 0.0 <= c <= a && a > 0.0
    ensures 0.0 <= Share(fee, c, a) <= fee
    ensures c == a ==> Share(fee, c, a) == fee
  {
    var x := fee * c;
    var s := x / a;
    assert s * a == x;
    MulMonotone(c, a, fee);
    MulMonotone(0.0, c, fee);
    if s > fee {
      MulStrict(fee, s, a);
    }
    if s < 0.0 {
      MulStrict(s, 0.0, a);
    }
    if c == a {
      WholeFee(fee, a);
    }
  }

  /** Fees: every fee is charged to exactly one trade, short of what an overshooting completion drops. */
  lemma FillMovesFees(o: Option<OpenTrade>, f: Fill, initialStop: real, byStop: bool)
    requires o.Some? ==> o.value.qty != 0.0
    ensures var r := Apply(o, f, initialStop, byStop);
      OpenFees(r.open_) + (if r.closed.Some? then r.closed.value.record.fees else 0.0)
      == OpenFees(o) + (if Effective(f) then Charge(f) else 0.0) - ResidueFee(o, f)
    ensures f.price > 0.0 ==> 0.0 <= ResidueFee(o, f) <= Charge(f)
  {
    hide CloseFee, AverageCost, Booked, Added;
    FeeIsCharge(f);
    if Effective(f) && o.Some? {
      var t := o.value;
      BookedFrame(t, f);
      if SameSign(t.qty, f.amount) {
        AddedFrame(t, f);
      } else {
        CloseFeeShare(t, f);
        ResidueFeeIsTheRest(t, f);
      }
    }
  }

  lemma ResidueFeeIsTheRest(o: OpenTrade, f: Fill)
    requires Closes(o, f) && f.price > 0.0
    ensures ResidueFee(Some(o), f) == if DropsResidue(Some(o), f) then FeeUsd(f) - CloseFee(o, f) else 0.0
  {
    hide FeeUsd, CloseFee, Charge, DropsResidue;
    FeeIsCharge(f);
    CloseFeeShare(o, f);
    assert Charge(f) * 0.0 / Abs(f.amount) == 0.0;
  }

  lemma FeeIsCharge(f: Fill)
    ensures FeeUsd(f) == Charge(f)
  {
  }

  /** The fill with its fee turned into dollars at the fill's price. */
  function InDollars(f: Fill): Fill {
    f.(fee := MetalFee(f) + DollarFee(f), feeCurrency := FaceValue)
  }

  /** A fee in metal does to the open and the closed trades exactly what its value in dollars does. */
  lemma MetalFeeIsItsValue(o: Option<OpenTrade>, f: Fill, initialStop: real, byStop: bool)
    ensures Apply(o, InDollars(f), initialStop, byStop) == Apply(o, f, initialStop, byStop)
    ensures Effective(f) && o.None? ==> OpenFees(Apply(o, f, initialStop, byStop).open_) == Charge(f)
  {
    if Effective(f) {
      FeeIsCharge(f);
      FeeIsCharge(InDollars(f));
      ChargeIsPositive(f);
      FeeDecides(o, f, InDollars(f), initialStop, byStop);
    }
  }

  /** A fill's fee counts only through its value. */
  lemma FeeDecides(o: Option<OpenTrade>, f: Fill, g: Fill, initialStop: real, byStop: bool)
    requires g == f.(fee := g.fee, feeCurrency := g.feeCurrency) && FeeUsd(g) == FeeUsd(f)
    ensures Apply(o, g, initialStop, byStop) == Apply(o, f, initialStop, byStop)
  {
    hide FeeUsd, CloseGross, CloseNotional, AverageCost, Started, Finished;
    if Effective(f) {
      StartDecides(f, g, initialStop);
      if o.Some? && SameSign(o.value.qty, f.amount) {
        AddDecides(o.value, f, g);
      } else if o.Some? {
        var t := o.value;
        assert CloseFee(t, g) == CloseFee(t, f) && CloseGross(t, g) == CloseGross(t, f)
               && CloseNotional(t, g) == CloseNotional(t, f) by { PartsDecide(t, f, g); }
        assert Excess(t, g) == Excess(t, f) && Booked(t, g) == Booked(t, f);
        EndDecides(Booked(t, f), f, g, byStop);
      }
    }
  }

  lemma PartsDecide(o: OpenTrade, f: Fill, g: Fill)
    requires g == f.(fee := g.fee, feeCurrency := g.feeCurrency) && FeeUsd(g) == FeeUsd(f)
    ensures CloseFee(o, g) == CloseFee(o, f) && CloseGross(o, g) == CloseGross(o, f)
    ensures CloseNotional(o, g) == CloseNotional(o, f)
  {
    hide FeeUsd;
  }

  lemma AddDecides(o: OpenTrade, f: Fill, g: Fill)
    requires g == f.(fee := g.fee, feeCurrency := g.feeCurrency) && FeeUsd(g) == FeeUsd(f)
    requires SameSign(o.qty, f.amount)
    ensures Added(o, g) == Added(o, f)
  {
    hide FeeUsd;
  }

  lemma StartDecides(f: Fill, g: Fill, initialStop: real)
    requires g == f.(fee := g.fee, feeCurrency := g.feeCurrency) && FeeUsd(g) == FeeUsd(f)
    ensures Started(g, initialStop) == Started(f, initialStop)
  {
    hide FeeUsd;
  }

  lemma EndDecides(o: OpenTrade, f: Fill, g: Fill, byStop: bool)
    requires g == f.(fee := g.fee, feeCurrency := g.feeCurrency)
    ensures Finished(o, g, byStop) == Finished(o, f, byStop)
  {
  }

  lemma ChargeIsPositive(f: Fill)
    requires f.price > 0.0
    ensures Charge(f) >= 0.0 && MetalFee(f) >= 0.0
  {
    MulMonotone(0.0, Abs(f.fee), f.price);
  }

  // ---- Every trade balances -----------------------------------------------------------------------

  /** Booking a closing fill keeps the trade's balance for the quantity not yet closed. */
  lemma BookedBalance(o: OpenTrade, f: Fill, entry: real)
    requires Balanced(o, entry) && Closes(o, f)
    ensures var b := Booked(o, f);
      && b.entryQuantity - b.exitQuantity == Abs(o.qty) - CloseQuantity(o, f)
      && b.exitQuantity >= CloseQuantity(o, f) > 0.0
      && b.record.quantity == b.entryQuantity && b.record.long == o.record.long
      && b.record.gross == Profit(b.record.long, b.exitNotional, entry)
                           + (if Within(o, f) then CostBasis(o) + f.amount * o.avg else 0.0)
  {
    hide FeeUsd, CloseFee, CloseGross, CloseNotional;
    CloseGrossSigned(o, f);
  }

  /** A trade closed by a completing or reversing fill is settled. */
  lemma FinishSettles(o: OpenTrade, f: Fill, entry: real, byStop: bool)
    requires Balanced(o, entry) && Closes(o, f) && (Reverses(o, f) || Completes(o, f))
    ensures Settled(Closed(Finished(Booked(o, f), f, byStop), entry))
    ensures Reverses(o, f) ==> Shortfall(Closed(Finished(Booked(o, f), f, byStop), entry)) == 0.0
  {
    hide FeeUsd, CloseFee, CloseGross, CloseNotional;
    var b := Booked(o, f);
    BookedBalance(o, f, entry);
    QuotientTimes(b.exitNotional, b.exitQuantity);
    Distribute(o.qty, f.amount, o.avg);
    var short := Abs(o.qty) - CloseQuantity(o, f);
    if Within(o, f) {
      assert short == Direction(o.record.long) * (o.qty + f.amount);
      Negate(o.qty + f.amount, o.avg);
    }
    FinishedFrame(b, f, byStop);
    if b.initialRisk > 0.0 {
      QuotientTimes(Finished(b, f, byStop).record.net, b.initialRisk);
    }
  }

  lemma FinishedFrame(b: OpenTrade, f: Fill, byStop: bool)
    requires b.exitQuantity > 0.0
    ensures var t := Finished(b, f, byStop);
      && t.record.gross == b.record.gross && t.record.quantity == b.record.quantity && t.record.long == b.record.long
      && t.avg == b.avg && t.entryQuantity == b.entryQuantity && t.exitQuantity == b.exitQuantity
      && t.exitNotional == b.exitNotional && t.fees == b.fees && t.accruedFunding == b.accruedFunding
      && t.record.exitVwap == b.exitNotional / b.exitQuantity
      && t.record.fees == t.fees && t.record.funding == t.accruedFunding
      && t.record.net == t.record.gross - t.record.fees - t.record.funding
      && t.initialRisk == b.initialRisk && (b.initialRisk > 0.0 ==> t.record.rMultiple == t.record.net / b.initialRisk)
  {
  }

  lemma StartBalances(f: Fill, initialStop: real)
    requires f.amount != 0.0
    ensures Balanced(Started(f, initialStop), Notional(f.amount, f.price))
  {
    hide FeeUsd;
    Negate(f.amount, f.price);
  }

  /** One fill keeps the open trade balanced and settles any trade it closes. */
  lemma FillKeepsBalance(o: Option<OpenTrade>, f: Fill, initialStop: real, byStop: bool, entry: real)
    requires OpenBalanced(o, entry)
    ensures var r := Apply(o, f, initialStop, byStop);
      && OpenBalanced(r.open_, EntryAfter(o, f, entry))
      && (r.closed.Some? ==> Settled(Closed(r.closed.value, entry)))
  {
    hide FeeUsd, CloseFee, AverageCost, Booked, Added, Started, Settled, Finished, Excess, Balanced, Notional;
    if Effective(f) {
      if o.None? {
        StartBalances(f, initialStop);
      } else {
        var t := o.value;
        BalancedQty(t, entry);
        if SameSign(t.qty, f.amount) {
          AddBalances(t, f, entry);
        } else if Reverses(t, f) {
          FinishSettles(t, f, entry, byStop);
          ExcessFrame(t, f);
          StartBalances(Excess(t, f), initialStop);
        } else if Completes(t, f) {
          FinishSettles(t, f, entry, byStop);
        } else {
          PartialBalances(t, f, entry);
        }
      }
    }
  }

  lemma BalancedQty(o: OpenTrade, entry: real)
    requires Balanced(o, entry)
    ensures o.qty != 0.0
  {
  }

  lemma ExcessFrame(o: OpenTrade, f: Fill)
    ensures Excess(o, f).amount == o.qty + f.amount && Excess(o, f).price == f.price
  {
    hide FeeUsd, CloseFee;
  }

  lemma PartialBalances(o: OpenTrade, f: Fill, entry: real)
    requires Balanced(o, entry) && Closes(o, f) && !Reverses(o, f) && !Completes(o, f)
    ensures Balanced(Booked(o, f).(qty := o.qty + f.amount), entry)
  {
    hide FeeUsd, CloseFee, CloseGross, CloseNotional, Booked;
    BookedBalance(o, f, entry);
    BookedFrame(o, f);
    Distribute(o.qty, f.amount, o.avg);
    assert Within(o, f);
  }

  // ---- Runs ---------------------------------------------------------------------------------------

  predicate AllSettled(c: seq<Closed>) {
    forall k :: 0 <= k < |c| ==> Settled(c[k])
  }

  /** A journal in which the open trade balances and every closed trade is settled. */
  predicate Sound(j: Journal) {
    OpenBalanced(j.ledger.open_, j.entryNotional) && AllSettled(j.closed)
  }

  /** The fill an event applies, if it applies one: unseen, with an identity, a size and a price. */
  predicate Applies(j: Journal, e: Event) {
    e.Fills? && Fresh(j.ledger, e.f)
  }

  lemma AccrualKeepsBalance(o: OpenTrade, at: Time, price: real, rate: real, entry: real)
    ensures var a := Accrued(o, at, price, rate);
      && a.record == o.record && a.qty == o.qty && a.avg == o.avg && a.fees == o.fees
      && a.entryQuantity == o.entryQuantity && a.exitQuantity == o.exitQuantity && a.exitNotional == o.exitNotional
      && (Balanced(o, entry) ==> Balanced(a, entry))
  {
    hide FundingCharge;
  }

  lemma MarkKeepsBalance(s: State, now: Time, price: real, rate: real, entry: real)
    requires OpenBalanced(s.open_, entry)
    ensures OpenBalanced(Marked(s, now, price, rate).open_, entry)
    ensures OpenGross(Marked(s, now, price, rate).open_) == OpenGross(s.open_)
    ensures OpenQty(Marked(s, now, price, rate).open_) == OpenQty(s.open_)
    ensures OpenFees(Marked(s, now, price, rate).open_) == OpenFees(s.open_)
  {
    hide Accrued;
    if s.open_.Some? {
      AccrualKeepsBalance(s.open_.value, now, price, rate, entry);
    }
  }

  lemma StepKeepsSound(j: Journal, e: Event)
    requires Sound(j)
    ensures Sound(Step(j, e))
  {
    hide Accrued, Apply, Marked, Settled, Balanced;
    match e
    case Mark(now, price, rate) => MarkKeepsBalance(j.ledger, now, price, rate, j.entryNotional);
    case Fills(f, ctx, byStop) =>
      if Fresh(j.ledger, f) {
        var o := Before(j, f, ctx);
        if j.ledger.open_.Some? {
          AccrualKeepsBalance(j.ledger.open_.value, f.time, f.price, ctx.fundingDailyRate, j.entryNotional);
        }
        FillKeepsBalance(o, f, ctx.initialStop, byStop || f.isStop, j.entryNotional);
      }
  }

  /** Over every run the open trade balances and every closed trade is settled. */
  lemma {:induction false} EveryTradeSettles(j: Journal, es: seq<Event>)
    requires Sound(j)
    ensures Sound(Run(j, es))
  {
    if es != [] {
      EveryTradeSettles(j, es[..|es| - 1]);
      StepKeepsSound(Run(j, es[..|es| - 1]), es[|es| - 1]);
    }
  }

  // ---- Conservation -------------------------------------------------------------------------------

  /**
   * What a run of events put in and what completed trades dropped: cash paid for fills, signed quantity, fees in
   * dollars and in metal, and the residue in quantity, value and fees.
   */
  datatype Totals = Totals(
    paid: real, bought: real, dollarFees: real, metalFees: real, lostQty: real, lostValue: real, lostFees: real)

  const NOTHING := Totals(0.0, 0.0, 0.0, 0.0, 0.0, 0.0, 0.0)

  function Contribution(j: Journal, e: Event): Totals {
    if !Applies(j, e) then NOTHING
    else
      var f, o := e.f, Before(j, e.f, e.ctx);
      var lost := Totals(0.0, 0.0, 0.0, 0.0, Residue(o, f), ResidueValue(o, f), ResidueFee(o, f));
      if !Effective(f) then lost
      else lost.(paid := f.amount * f.price, bought := f.amount, dollarFees := DollarFee(f), metalFees := MetalFee(f))
  }

  function Plus(a: Totals, b: Totals): Totals {
    Totals(a.paid + b.paid, a.bought + b.bought, a.dollarFees + b.dollarFees, a.metalFees + b.metalFees,
           a.lostQty + b.lostQty, a.lostValue + b.lostValue, a.lostFees + b.lostFees)
  }

  function Tally(j: Journal, es: seq<Event>): Totals {
    if es == [] then NOTHING
    else Plus(Tally(j, es[..|es| - 1]), Contribution(Run(j, es[..|es| - 1]), es[|es| - 1]))
  }

  function Money(j: Journal): real {
    Gross(j.closed) + OpenGross(j.ledger.open_)
  }

  function AllFees(j: Journal): real {
    Fees(j.closed) + OpenFees(j.ledger.open_)
  }

  lemma TakenJournal(j: Journal, e: Event)
    requires Applies(j, e)
    ensures var r := Apply(Before(j, e.f, e.ctx), e.f, e.ctx.initialStop, e.byStop || e.f.isStop);
      && Step(j, e).ledger.open_ == r.open_
      && Step(j, e).closed ==
         (if r.closed.Some? then j.closed + [Closed(r.closed.value, j.entryNotional)] else j.closed)
      && Gross(Step(j, e).closed) == Gross(j.closed) + ClosedGross(r.closed)
      && Fees(Step(j, e).closed) == Fees(j.closed) + (if r.closed.Some? then r.closed.value.record.fees else 0.0)
  {
    hide Apply, AccruedIfOpen;
    var r := Apply(Before(j, e.f, e.ctx), e.f, e.ctx.initialStop, e.byStop || e.f.isStop);
    if r.closed.Some? {
      var c := j.closed + [Closed(r.closed.value, j.entryNotional)];
      assert Step(j, e).closed == c && c[..|c| - 1] == j.closed;
    } else {
      assert Step(j, e).closed == j.closed;
    }
  }

  lemma AccruedOpen(j: Journal, f: Fill, ctx: Context)
    requires OpenBalanced(j.ledger.open_, j.entryNotional)
    ensures var o := Before(j, f, ctx);
      && OpenBalanced(o, j.entryNotional) && OpenGross(o) == OpenGross(j.ledger.open_)
      && OpenQty(o) == OpenQty(j.ledger.open_) && OpenFees(o) == OpenFees(j.ledger.open_)
  {
    hide Accrued;
    if j.ledger.open_.Some? {
      AccrualKeepsBalance(j.ledger.open_.value, f.time, f.price, ctx.fundingDailyRate, j.entryNotional);
    }
  }

  lemma StepConserves(j: Journal, e: Event)
    requires Sound(j)
    ensures var t, j' := Contribution(j, e), Step(j, e);
      && Money(j') == Money(j) - t.paid + t.lostValue
      && OpenQty(j'.ledger.open_) == OpenQty(j.ledger.open_) + t.bought - t.lostQty
      && AllFees(j') == AllFees(j) + t.dollarFees + t.metalFees - t.lostFees
      && |j'.closed| >= |j.closed|
      && Abs(t.lostQty) <= 1e-9 * (|j'.closed| - |j.closed|) as real
  {
    hide Apply, AccruedIfOpen, Marked, Residue, ResidueValue, ResidueFee, DollarFee, MetalFee, OpenGross, OpenQty,
         OpenFees, AllSettled;
    match e
    case Mark(now, price, rate) => MarkKeepsBalance(j.ledger, now, price, rate, j.entryNotional);
    case Fills(f, ctx, byStop) =>
      if Fresh(j.ledger, f) {
        var o, stop := Before(j, f, ctx), byStop || f.isStop;
        TakenJournal(j, e);
        AccruedOpen(j, f, ctx);
        FillMovesMoney(o, f, ctx.initialStop, stop, j.entryNotional);
        FillMovesQuantity(o, f, ctx.initialStop, stop);
        OpenIsNonZero(o, j.entryNotional);
        FillMovesFees(o, f, ctx.initialStop, stop);
      }
  }

  lemma OpenIsNonZero(o: Option<OpenTrade>, entry: real)
    requires OpenBalanced(o, entry)
    ensures o.Some? ==> o.value.qty != 0.0
  {
  }

  /**
   * Conservation over every run: realised gross plus open gross at cost is minus the cash paid, the open quantity
   * is the signed sum of fills, and every fee, one in metal at its value, is charged to a trade, all exactly up to the
   * residue dropped by completed trades, which is at most 1e-9 of quantity for each trade closed.
   */
  lemma {:induction false} RunConserves(j: Journal, es: seq<Event>)
    requires Sound(j)
    ensures var t, end := Tally(j, es), Run(j, es);
      && Money(end) == Money(j) - t.paid + t.lostValue
      && OpenQty(end.ledger.open_) == OpenQty(j.ledger.open_) + t.bought - t.lostQty
      && AllFees(end) == AllFees(j) + t.dollarFees + t.metalFees - t.lostFees
      && |end.closed| >= |j.closed| && Abs(t.lostQty) <= 1e-9 * (|end.closed| - |j.closed|) as real
  {
    hide Step, Contribution, Money, AllFees, OpenQty;
    if es != [] {
      var front := es[..|es| - 1];
      RunConserves(j, front);
      EveryTradeSettles(j, front);
      StepConserves(Run(j, front), es[|es| - 1]);
      var n, m := |Run(j, front).closed| - |j.closed|, |Run(j, es).closed| - |Run(j, front).closed|;
      Expand(1e-9, n as real + m as real, 0.0);
    }
  }

  // ---- Whole lots ---------------------------------------------------------------------------------

  lemma MultiplesAdd(x: real, y: real, lot: real)
    requires IsMultiple(x, lot) && IsMultiple(y, lot)
    ensures IsMultiple(x + y, lot)
  {
    var k: int :| x == Steps(k, lot);
    var m: int :| y == Steps(m, lot);
    Distribute(k as real, m as real, lot);
    assert x + y == Steps(k + m, lot);
  }

  lemma SmallMultipleIsZero(x: real, lot: real)
    requires IsMultiple(x, lot) && lot > 1e-9 && Abs(x) <= 1e-9
    ensures x == 0.0
  {
    var k: int :| x == Steps(k, lot);
    if k >= 1 {
      MulMonotone(1.0, k as real, lot);
    } else if k <= -1 {
      MulMonotone(k as real, -1.0, lot);
    }
  }

  ghost predicate TradesInLots(es: seq<Event>, lot: real) {
    forall k :: 0 <= k < |es| && es[k].Fills? ==> IsMultiple(es[k].f.amount, lot)
  }

  lemma LotDropsNothing(o: Option<OpenTrade>, f: Fill, lot: real)
    requires lot > 1e-9 && IsMultiple(OpenQty(o), lot) && IsMultiple(f.amount, lot)
    requires o.Some? ==> o.value.qty != 0.0
    ensures Residue(o, f) == 0.0 && ResidueValue(o, f) == 0.0 && ResidueFee(o, f) == 0.0
  {
    hide FeeUsd, CloseFee;
    if DropsResidue(o, f) {
      MultiplesAdd(o.value.qty, f.amount, lot);
      SmallMultipleIsZero(o.value.qty + f.amount, lot);
      CloseFeeShare(o.value, f);
    }
  }

  lemma StepInLots(j: Journal, e: Event, lot: real)
    requires Sound(j) && lot > 1e-9 && IsMultiple(OpenQty(j.ledger.open_), lot)
    requires e.Fills? ==> IsMultiple(e.f.amount, lot)
    ensures var t := Contribution(j, e);
      t.lostQty == 0.0 && t.lostValue == 0.0 && t.lostFees == 0.0
      && IsMultiple(OpenQty(Step(j, e).ledger.open_), lot)
  {
    hide Step, AccruedIfOpen, Residue, ResidueValue, ResidueFee, FeeUsd, OpenQty, IsMultiple;
    StepConserves(j, e);
    if Applies(j, e) {
      var o := Before(j, e.f, e.ctx);
      AccruedOpen(j, e.f, e.ctx);
      OpenIsNonZero(o, j.entryNotional);
      LotDropsNothing(o, e.f, lot);
      MultiplesAdd(OpenQty(j.ledger.open_), e.f.amount, lot);
    }
  }

  /** When every fill is a whole number of lots larger than 1e-9, nothing is dropped: the laws hold exactly. */
  lemma {:induction false} WholeLotsConserve(j: Journal, es: seq<Event>, lot: real)
    requires Sound(j) && lot > 1e-9 && IsMultiple(OpenQty(j.ledger.open_), lot) && TradesInLots(es, lot)
    ensures var t, end := Tally(j, es), Run(j, es);
      && Money(end) == Money(j) - t.paid
      && OpenQty(end.ledger.open_) == OpenQty(j.ledger.open_) + t.bought
      && AllFees(end) == AllFees(j) + t.dollarFees + t.metalFees
      && IsMultiple(OpenQty(end.ledger.open_), lot)
      && t.lostQty == 0.0 && t.lostValue == 0.0 && t.lostFees == 0.0
  {
    hide Step, Contribution, Money, AllFees, OpenQty, IsMultiple;
    RunConserves(j, es);
    if es != [] {
      var front := es[..|es| - 1];
      WholeLotsConserve(j, front, lot);
      EveryTradeSettles(j, front);
      StepInLots(Run(j, front), es[|es| - 1], lot);
    }
  }

  /** A closed trade with nothing short: its gross result is exactly exit against entry notional. */
  predicate SettledInFull(c: Closed) {
    Shortfall(c) == 0.0 && c.trade.record.gross == Profit(c.trade.record.long, c.trade.exitNotional, c.entryNotional)
  }

  /** The later list of closed trades extends the earlier one by trades settled in full. */
  predicate AddsInFull(was: seq<Closed>, now: seq<Closed>) {
    |was| <= |now| && now[..|was|] == was && forall k :: |was| <= k < |now| ==> SettledInFull(now[k])
  }

  /** What is missing from the exits of a trade is what the closing fill left of it. */
  lemma ClosedShortfall(o: OpenTrade, f: Fill, entry: real, byStop: bool)
    requires Balanced(o, entry) && Closes(o, f) && (Reverses(o, f) || Completes(o, f))
    ensures Shortfall(Closed(Finished(Booked(o, f), f, byStop), entry)) == Abs(o.qty) - CloseQuantity(o, f)
  {
    hide FeeUsd, CloseFee, CloseGross, CloseNotional, Booked, Finished;
    BookedBalance(o, f, entry);
    FinishedFrame(Booked(o, f), f, byStop);
  }

  lemma NothingShort(c: Closed)
    requires Settled(c) && Shortfall(c) == 0.0
    ensures SettledInFull(c)
  {
    assert 0.0 * c.trade.avg == 0.0;
  }

  lemma LotClosesInFull(o: Option<OpenTrade>, f: Fill, initialStop: real, byStop: bool, entry: real, lot: real)
    requires OpenBalanced(o, entry) && lot > 1e-9 && IsMultiple(OpenQty(o), lot) && IsMultiple(f.amount, lot)
    ensures var r := Apply(o, f, initialStop, byStop);
      r.closed.Some? ==> SettledInFull(Closed(r.closed.value, entry))
  {
    hide FeeUsd, CloseFee, AverageCost, Booked, Added, Started, Settled, Finished, Excess, Balanced, IsMultiple,
         Shortfall, SettledInFull, Residue;
    var r := Apply(o, f, initialStop, byStop);
    FillKeepsBalance(o, f, initialStop, byStop, entry);
    if r.closed.Some? {
      var t := o.value;
      OpenIsNonZero(o, entry);
      ClosedShortfall(t, f, entry, byStop);
      if Completes(t, f) {
        MultiplesAdd(t.qty, f.amount, lot);
        SmallMultipleIsZero(t.qty + f.amount, lot);
      }
      NothingShort(Closed(r.closed.value, entry));
    }
  }

  lemma StepAddsInFull(j: Journal, e: Event, lot: real)
    requires Sound(j) && lot > 1e-9 && IsMultiple(OpenQty(j.ledger.open_), lot)
    requires e.Fills? ==> IsMultiple(e.f.amount, lot)
    ensures AddsInFull(j.closed, Step(j, e).closed)
  {
    hide Apply, AccruedIfOpen, Marked, OpenQty, IsMultiple, SettledInFull, AllSettled;
    if Applies(j, e) {
      TakenJournal(j, e);
      AccruedOpen(j, e.f, e.ctx);
      LotClosesInFull(Before(j, e.f, e.ctx), e.f, e.ctx.initialStop, e.byStop || e.f.isStop, j.entryNotional, lot);
    }
  }

  /** In whole lots every trade a run closes is settled in full. */
  lemma {:induction false} WholeLotsSettleInFull(j: Journal, es: seq<Event>, lot: real)
    requires Sound(j) && lot > 1e-9 && IsMultiple(OpenQty(j.ledger.open_), lot) && TradesInLots(es, lot)
    ensures AddsInFull(j.closed, Run(j, es).closed)
  {
    hide Step, OpenQty, IsMultiple, SettledInFull, Sound;
    if es != [] {
      var front := es[..|es| - 1];
      WholeLotsSettleInFull(j, front, lot);
      WholeLotsConserve(j, front, lot);
      EveryTradeSettles(j, front);
      StepAddsInFull(Run(j, front), es[|es| - 1], lot);
      AddsCompose(j.closed, Run(j, front).closed, Run(j, es).closed);
    }
  }

  lemma AddsCompose(a: seq<Closed>, b: seq<Closed>, c: seq<Closed>)
    requires AddsInFull(a, b) && AddsInFull(b, c)
    ensures AddsInFull(a, c)
  {
    hide SettledInFull;
    assert c[..|a|] == c[..|b|][..|a|];
    forall k | |a| <= k < |c| ensures SettledInFull(c[k]) {
      assert k < |b| ==> c[k] == c[..|b|][k];
    }
  }

  // ---- When a fill is not followed ----------------------------------------------------------------

  /** A closing fill that leaves or overshoots a position by at most 1e-9, but not exactly flat. */
  predicate NearlyCloses(o: Option<OpenTrade>, f: Fill) {
    Effective(f) && o.Some? && !SameSign(o.value.qty, f.amount) && 0.0 < Abs(o.value.qty + f.amount) <= 1e-9
  }

  /** The open quantity follows a fill exactly if and only if the fill does not nearly close the position. */
  lemma FillIsFollowedIff(o: Option<OpenTrade>, f: Fill, initialStop: real, byStop: bool)
    requires o.Some? ==> o.value.qty != 0.0
    ensures OpenQty(Apply(o, f, initialStop, byStop).open_) == OpenQty(o) + (if Effective(f) then f.amount else 0.0)
       <==> !NearlyCloses(o, f)
  {
    hide Apply;
    FillMovesQuantity(o, f, initialStop, byStop);
  }

  /** Half a billionth short of flat: the trade completes and the rest is forgotten. */
  lemma NearCloseForgets()
    ensures var j := Journal(State({}, 0, None), [], 0.0);
      var f := Fill(1, 1, 1.0, 4000.0, 0.0, FaceValue, false);
      var g := Fill(2, 2, -0.9999999995, 4000.0, 0.0, FaceValue, false);
      var ctx := Context(3900.0, 0.0);
      var end := Run(j, [Fills(f, ctx, false), Fills(g, ctx, false)]);
      OpenQty(end.ledger.open_) == 0.0 && |end.closed| == 1 && Shortfall(end.closed[0]) == 0.0000000005
      && f.amount + g.amount == 0.0000000005
  {
    hide Apply, Started, Accrued, Step, Balanced;
    var j := Journal(State({}, 0, None), [], 0.0);
    var f := Fill(1, 1, 1.0, 4000.0, 0.0, FaceValue, false);
    var g := Fill(2, 2, -0.9999999995, 4000.0, 0.0, FaceValue, false);
    var ctx := Context(3900.0, 0.0);
    var e1, e2 := Fills(f, ctx, false), Fills(g, ctx, false);
    var j1 := Step(j, e1);
    var o := Started(f, 3900.0);
    TakenJournal(j, e1);
    FirstFillStarts(f, 3900.0);
    StaysUnseen(j, f, ctx, 2);
    assert Before(j1, g, ctx) == Some(o) by { LongsAccrueNothing(o, g, ctx); }
    CompletesShort(o, g, 4000.0);
    TakenJournal(j1, e2);
    RunOfTwo(j, e1, e2);
  }

  lemma FirstFillStarts(f: Fill, initialStop: real)
    requires Effective(f)
    ensures var o := Started(f, initialStop);
      && Apply(None, f, initialStop, false) == Applied(Some(o), None)
      && o.qty == f.amount && Balanced(o, Notional(f.amount, f.price))
  {
    hide FeeUsd;
    StartBalances(f, initialStop);
  }

  lemma StaysUnseen(j: Journal, f: Fill, ctx: Context, id: int)
    requires id !in j.ledger.seen && id != f.id
    ensures id !in Step(j, Fills(f, ctx, false)).ledger.seen
  {
    hide Apply, AccruedIfOpen;
  }

  lemma LongsAccrueNothing(o: OpenTrade, f: Fill, ctx: Context)
    requires o.qty >= 0.0
    ensures AccruedIfOpen(Some(o), f.time, f.price, ctx.fundingDailyRate) == Some(o)
  {
  }

  lemma CompletesShort(o: OpenTrade, f: Fill, entry: real)
    requires Balanced(o, entry) && Closes(o, f) && Effective(f) && Completes(o, f) && Within(o, f)
    ensures var r := Apply(Some(o), f, 3900.0, false);
      r.open_ == None && r.closed.Some? && Shortfall(Closed(r.closed.value, entry)) == Abs(o.qty) - Abs(f.amount)
  {
    hide FeeUsd, CloseFee, CloseGross, CloseNotional, Booked, Finished, Balanced, Shortfall;
    ClosedShortfall(o, f, entry, false);
  }

  lemma RunOfTwo(j: Journal, a: Event, b: Event)
    ensures Run(j, [a, b]) == Step(Step(j, a), b)
  {
    hide Step;
    assert [a, b][..1] == [a] && [a][..0] == [];
    assert Run(j, [a]) == Step(j, a);
  }

  // ---- Process is such a run ----------------------------------------------------------------------

  function FillEvents(fills: seq<Fill>, ctx: Context, byStop: bool): seq<Event> {
    seq(|fills|, i requires 0 <= i < |fills| => Fills(fills[i], ctx, byStop))
  }

  function Trades(c: seq<Closed>): seq<OpenTrade> {
    seq(|c|, i requires 0 <= i < |c| => c[i].trade)
  }

  lemma {:induction false} TakeAllIsARun(j: Journal, fills: seq<Fill>, ctx: Context, byStop: bool)
    ensures var r, end := TakeAll(j.ledger, fills, ctx, byStop), Run(j, FillEvents(fills, ctx, byStop));
      end.ledger == r.state && Trades(end.closed) == Trades(j.closed) + r.closed
  {
    hide Take;
    if fills != [] {
      var front := fills[..|fills| - 1];
      TakeAllIsARun(j, front, ctx, byStop);
      var es := FillEvents(fills, ctx, byStop);
      assert es[..|es| - 1] == FillEvents(front, ctx, byStop);
      StepIsTake(Run(j, es[..|es| - 1]), fills[|fills| - 1], ctx, byStop);
    }
  }

  lemma StepIsTake(j: Journal, f: Fill, ctx: Context, byStop: bool)
    ensures Step(j, Fills(f, ctx, byStop)).ledger == Take(j.ledger, f, ctx, byStop).state
    ensures Trades(Step(j, Fills(f, ctx, byStop)).closed) == Trades(j.closed) + Take(j.ledger, f, ctx, byStop).closed
  {
    hide Apply, AccruedIfOpen;
  }

  /** One call of Process is the run of its sorted fills followed by a mark. */
  lemma ProcessIsARun(j: Journal, sorted: seq<Fill>, ctx: Context, byStop: bool, now: Time, price: real)
    ensures var r := TakeAll(j.ledger, sorted, ctx, byStop);
      var end := Run(j, FillEvents(sorted, ctx, byStop) + [Mark(now, price, ctx.fundingDailyRate)]);
      && end.ledger == Marked(r.state, now, price, ctx.fundingDailyRate)
      && Trades(end.closed) == Trades(j.closed) + r.closed
  {
    hide Marked;
    TakeAllIsARun(j, sorted, ctx, byStop);
    var es := FillEvents(sorted, ctx, byStop) + [Mark(now, price, ctx.fundingDailyRate)];
    assert es[..|es| - 1] == FillEvents(sorted, ctx, byStop);
  }
}
