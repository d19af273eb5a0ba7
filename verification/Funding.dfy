/** Short-funding accrual over any partition of time into ticks and fills. */
module Funding {
  import opened Numbers
  import opened Domain
  import opened Ledger

  /** One accrual call: a tick or a fill at its own price and daily rate. */
  datatype Call = Call(at: Time, price: real, rate: real)

  datatype Charge = Charge(from: Time, to: Time, price: real, rate: real)

  function AccrueAll(o: OpenTrade, calls: seq<Call>): OpenTrade {
    if calls == [] then o
    else
      var last := calls[|calls| - 1];
      Accrued(AccrueAll(o, calls[..|calls| - 1]), last.at, last.price, last.rate)
  }

  predicate Charges(o: OpenTrade, c: Call) {
    o.qty < 0.0 && c.price > 0.0 && c.rate > 0.0 && o.lastFundingAt != 0 && c.at > o.lastFundingAt
  }

  /** The intervals charged, in order. */
  function Charged(o: OpenTrade, calls: seq<Call>): seq<Charge> {
    if calls == [] then []
    else
      var front, last := calls[..|calls| - 1], calls[|calls| - 1];
      var was := AccrueAll(o, front);
      Charged(o, front)
      + if Charges(was, last) then [Charge(was.lastFundingAt, last.at, last.price, last.rate)] else []
  }

  /** The charges lie end to end from one time to another: disjoint, non-empty and without gaps. */
  predicate Tile(cs: seq<Charge>, from: Time, to: Time) {
    && (forall k :: 0 <= k < |cs| ==> cs[k].from < cs[k].to)
    && (forall k :: 0 < k < |cs| ==> cs[k].from == cs[k - 1].to)
    && (if cs == [] then from == to else cs[0].from == from && cs[|cs| - 1].to == to)
  }

  /** A daily rate on the value held, for as long as it is held. */
  function DailyCost(qty: real, price: real, rate: real, elapsed: Duration): real {
    Abs(qty) * price * rate * (elapsed as real / 86_400_000_000_000.0)
  }

  lemma ChargeIsDailyCost(qty: real, price: real, rate: real, elapsed: Duration)
    ensures FundingCharge(qty, price, rate, elapsed) == DailyCost(qty, price, rate, elapsed)
  {
    assert DAY as real == 86_400_000_000_000.0;
  }

  function Total(qty: real, cs: seq<Charge>): real {
    if cs == [] then 0.0
    else
      var c := cs[|cs| - 1];
      Total(qty, cs[..|cs| - 1]) + DailyCost(qty, c.price, c.rate, c.to - c.from)
  }

  lemma ChargeIsPositive(qty: real, price: real, rate: real, elapsed: Duration)
    requires qty != 0.0 && price > 0.0 && rate > 0.0 && elapsed > 0
    ensures DailyCost(qty, price, rate, elapsed) > 0.0
  {
    MulStrict(0.0, Abs(qty), price);
    MulStrict(0.0, Abs(qty) * price, rate);
    DivPositive(elapsed as real, DAY as real);
    MulStrict(0.0, Abs(qty) * price * rate, elapsed as real / DAY as real);
  }

  lemma DivPositive(x: real, m: real)
    requires x > 0.0 && m > 0.0
    ensures x / m > 0.0
  {
  }

  lemma ChargesAdd(qty: real, price: real, rate: real, d: Duration, e: Duration)
    ensures DailyCost(qty, price, rate, d) + DailyCost(qty, price, rate, e)
         == DailyCost(qty, price, rate, d + e)
  {
    var k := Abs(qty) * price * rate;
    assert (d + e) as real / DAY as real == d as real / DAY as real + e as real / DAY as real;
    Distribute(d as real / DAY as real, e as real / DAY as real, k);
  }

  /** Only accrual moves a trade's funding; a fill leaves it alone or starts a new trade at its own time. */
  lemma FillsLeaveFundingAlone(o: OpenTrade, f: Fill, initialStop: real, byStop: bool)
    ensures var r := Apply(Some(o), f, initialStop, byStop).open_;
      r.Some? ==>
        || (r.value.accruedFunding == o.accruedFunding && r.value.lastFundingAt == o.lastFundingAt)
        || (r.value.accruedFunding == 0.0 && r.value.lastFundingAt == f.time && r.value.record.entryTime == f.time)
  {
    hide FeeUsd, CloseFee, CloseGross, CloseNotional, AverageCost;
  }

  lemma AccrualFrame(o: OpenTrade, c: Call)
    requires o.lastFundingAt != 0
    ensures var a := Accrued(o, c.at, c.price, c.rate);
      && a == o.(accruedFunding := a.accruedFunding, lastFundingAt := a.lastFundingAt)
      && a.accruedFunding == o.accruedFunding
           + (if Charges(o, c) then DailyCost(o.qty, c.price, c.rate, c.at - o.lastFundingAt) else 0.0)
      && a.lastFundingAt == if Charges(o, c) then c.at else o.lastFundingAt
  {
    ChargeIsDailyCost(o.qty, c.price, c.rate, c.at - o.lastFundingAt);
    hide DailyCost, FundingCharge;
  }

  /** The first accrual of a short without a date charges nothing and dates it. */
  lemma UndatedIsOnlyDated(o: OpenTrade, c: Call)
    requires o.qty < 0.0 && o.lastFundingAt == 0 && c.price > 0.0 && c.rate > 0.0
    ensures Accrued(o, c.at, c.price, c.rate) == o.(lastFundingAt := c.at)
  {
  }

  lemma NothingCharged(qty: real, at: Time)
    ensures Tile([], at, at) && Total(qty, []) == 0.0
  {
  }

  lemma OneMoreCharge(cs: seq<Charge>, c: Charge, qty: real, from: Time)
    requires Tile(cs, from, c.from) && c.from < c.to
    ensures Tile(cs + [c], from, c.to)
    ensures Total(qty, cs + [c]) == Total(qty, cs) + DailyCost(qty, c.price, c.rate, c.to - c.from)
  {
    hide DailyCost;
    assert (cs + [c])[..|cs|] == cs;
  }

  /**
   * For any sequence of accrual calls the charged intervals tile the time from the last charge to the new one, and
   * the funding grows by exactly their charges; so it never falls, and a long is never charged.
   */
  lemma {:induction false} AccrualTilesTime(o: OpenTrade, calls: seq<Call>)
    requires o.lastFundingAt > 0
    ensures var a, cs := AccrueAll(o, calls), Charged(o, calls);
      && a == o.(accruedFunding := a.accruedFunding, lastFundingAt := a.lastFundingAt)
      && a.lastFundingAt >= o.lastFundingAt
      && Tile(cs, o.lastFundingAt, a.lastFundingAt)
      && a.accruedFunding == o.accruedFunding + Total(o.qty, cs)
      && a.accruedFunding >= o.accruedFunding
      && (o.qty >= 0.0 ==> cs == [] && a == o)
  {
    hide Accrued, DailyCost, Tile, Total;
    if calls == [] {
      NothingCharged(o.qty, o.lastFundingAt);
    } else {
      var front, last := calls[..|calls| - 1], calls[|calls| - 1];
      AccrualTilesTime(o, front);
      var was := AccrueAll(o, front);
      AccrualFrame(was, last);
      if Charges(was, last) {
        ChargeIsPositive(o.qty, last.price, last.rate, last.at - was.lastFundingAt);
        var c := Charge(was.lastFundingAt, last.at, last.price, last.rate);
        OneMoreCharge(Charged(o, front), c, o.qty, o.lastFundingAt);
      } else {
        assert Charged(o, calls) == Charged(o, front);
      }
    }
  }

  function Latest(from: Time, calls: seq<Call>): Time {
    if calls == [] then from
    else
      var t := Latest(from, calls[..|calls| - 1]);
      if calls[|calls| - 1].at > t then calls[|calls| - 1].at else t
  }

  /** At a constant short size, price and positive rate the total depends on the end points alone. */
  lemma {:induction false} ConstantRateTelescopes(o: OpenTrade, calls: seq<Call>, price: real, rate: real)
    requires o.lastFundingAt > 0 && o.qty < 0.0 && price > 0.0 && rate > 0.0
    requires forall k :: 0 <= k < |calls| ==> calls[k].price == price && calls[k].rate == rate
    ensures var a := AccrueAll(o, calls);
      && a.lastFundingAt == Latest(o.lastFundingAt, calls)
      && a.accruedFunding == o.accruedFunding + DailyCost(o.qty, price, rate, a.lastFundingAt - o.lastFundingAt)
  {
    hide Accrued, DailyCost;
    if calls == [] {
      ChargesAdd(o.qty, price, rate, 0, 0);
    } else {
      var front, last := calls[..|calls| - 1], calls[|calls| - 1];
      ConstantRateTelescopes(o, front, price, rate);
      AccrualTilesTime(o, front);
      var was := AccrueAll(o, front);
      AccrualFrame(was, last);
      if Charges(was, last) {
        ChargesAdd(o.qty, price, rate, was.lastFundingAt - o.lastFundingAt, last.at - was.lastFundingAt);
      }
    }
  }
}
