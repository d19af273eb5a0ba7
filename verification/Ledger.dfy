/** The fill ledger: average-cost trade accounting over deduplicated fills, with short funding accrual. */
module Ledger {
  import opened Numbers
  import opened Sequences
  import opened Domain

  const DUST := 1e-9
  const SEEN_LIMIT := 2000

  /** What the ledger distinguishes about a fee's currency: the metal itself, or anything taken at face value. */
  datatype FeeCurrency = Metal | FaceValue

  /** isStop: the order type contains "STOP". A sell has a negative amount. */
  datatype Fill = Fill(
    id: int, time: Time, amount: real, price: real, fee: real, feeCurrency: FeeCurrency, isStop: bool)

  /** The completed-trade record; byStop says the exit reason mentions a stop. */
  datatype Record = Record(
    id: int, long: bool, entryTime: Time, exitTime: Time, entryVwap: real, exitVwap: real, quantity: real,
    gross: real, fees: real, funding: real, net: real, rMultiple: real, mfe: real, mae: real,
    initialStop: real, byStop: bool)

  datatype OpenTrade = OpenTrade(
    record: Record, qty: real, avg: real, entryQuantity: real, exitQuantity: real, exitNotional: real,
    initialRisk: real, accruedFunding: real, lastFundingAt: Time, fees: real)

  /** The part of the caller's context the accounting uses. */
  datatype Context = Context(initialStop: real, fundingDailyRate: real)

  function FeeUsd(f: Fill): (r: real)
    ensures f.price >= 0.0 ==> r >= 0.0
  {
    if f.feeCurrency == Metal then Abs(f.fee) * f.price else Abs(f.fee)
  }

  // ---- Funding ----------------------------------------------------------------------------------

  function FundingCharge(qty: real, price: real, dailyRate: real, elapsed: Duration): real {
    Abs(qty) * price * dailyRate * (elapsed as real / DAY as real)
  }

  function Accrued(o: OpenTrade, at: Time, price: real, dailyRate: real): OpenTrade {
    if o.qty >= 0.0 || price <= 0.0 || dailyRate <= 0.0 then o
    else if o.lastFundingAt == 0 then o.(lastFundingAt := at)
    else if at <= o.lastFundingAt then o
    else
      o.(accruedFunding := o.accruedFunding + FundingCharge(o.qty, price, dailyRate, at - o.lastFundingAt),
         lastFundingAt := at)
  }

  function AccruedIfOpen(o: Option<OpenTrade>, at: Time, price: real, dailyRate: real): Option<OpenTrade> {
    if o.None? then None else Some(Accrued(o.value, at, price, dailyRate))
  }

  // ---- One fill ---------------------------------------------------------------------------------

  function Started(f: Fill, initialStop: real): OpenTrade {
    OpenTrade(
      Record(f.id, f.amount >= 0.0, f.time, 0, f.price, 0.0, Abs(f.amount), 0.0, 0.0, 0.0, 0.0, 0.0, 0.0, 0.0,
             initialStop, false),
      f.amount, f.price, Abs(f.amount), 0.0, 0.0, Abs(f.amount) * Abs(f.price - initialStop), 0.0, f.time, FeeUsd(f))
  }

  /** The average cost after adding to a position on its own side. */
  function AverageCost(avg: real, before: real, price: real, add: real): real
    requires before + add != 0.0
  {
    (avg * before + price * add) / (before + add)
  }

  function Added(o: OpenTrade, f: Fill): OpenTrade
    requires SameSign(o.qty, f.amount)
  {
    var add := Abs(f.amount);
    var avg, entry := AverageCost(o.avg, Abs(o.qty), f.price, add), o.entryQuantity + add;
    o.(avg := avg, qty := o.qty + f.amount, entryQuantity := entry,
       record := o.record.(entryVwap := avg, quantity := entry),
       initialRisk := o.initialRisk + add * Abs(f.price - o.record.initialStop), fees := o.fees + FeeUsd(f))
  }

  function CloseQuantity(o: OpenTrade, f: Fill): real {
    Min(Abs(o.qty), Abs(f.amount))
  }

  function Value(q: real, price: real): real {
    q * price
  }

  function Share(fee: real, part: real, whole: real): real
    requires whole != 0.0
  {
    fee * part / whole
  }

  /** The share of a fill's fee that belongs to the quantity it closes. */
  function CloseFee(o: OpenTrade, f: Fill): real {
    if Abs(f.amount) > 0.0 then Share(FeeUsd(f), CloseQuantity(o, f), Abs(f.amount)) else FeeUsd(f)
  }

  function CloseGross(o: OpenTrade, f: Fill): real {
    Value(CloseQuantity(o, f), if o.qty > 0.0 then f.price - o.avg else o.avg - f.price)
  }

  function CloseNotional(o: OpenTrade, f: Fill): real {
    Value(CloseQuantity(o, f), f.price)
  }

  /** The trade after booking the closing part of a fill, before its quantity is reduced. */
  function Booked(o: OpenTrade, f: Fill): OpenTrade {
    o.(record := o.record.(gross := o.record.gross + CloseGross(o, f)),
       fees := o.fees + CloseFee(o, f), exitQuantity := o.exitQuantity + CloseQuantity(o, f),
       exitNotional := o.exitNotional + CloseNotional(o, f))
  }

  function Finished(o: OpenTrade, f: Fill, byStop: bool): OpenTrade {
    var net := o.record.gross - o.fees - o.accruedFunding;
    o.(record := o.record.(
         exitTime := f.time, exitVwap := if o.exitQuantity > 0.0 then o.exitNotional / o.exitQuantity else f.price,
         fees := o.fees, funding := o.accruedFunding, net := net,
         rMultiple := if o.initialRisk > 0.0 then net / o.initialRisk else o.record.rMultiple, byStop := byStop))
  }

  /** The part of a reversing fill that opens the next trade. */
  function Excess(o: OpenTrade, f: Fill): Fill {
    Fill(f.id, f.time, o.qty + f.amount, f.price, Max(0.0, FeeUsd(f) - CloseFee(o, f)), FaceValue, f.isStop)
  }

  datatype Applied = Applied(open_: Option<OpenTrade>, closed: Option<OpenTrade>)

  predicate Effective(f: Fill) {
    f.amount != 0.0 && f.price > 0.0
  }

  predicate Reverses(o: OpenTrade, f: Fill) {
    Abs(o.qty + f.amount) > DUST && !SameSign(o.qty + f.amount, o.qty)
  }

  predicate Completes(o: OpenTrade, f: Fill) {
    Abs(o.qty + f.amount) <= DUST
  }

  /** What one fill does to the open trade, and the trade it closes if any. */
  function Apply(o: Option<OpenTrade>, f: Fill, initialStop: real, byStop: bool): Applied {
    if !Effective(f) then Applied(o, None)
    else if o.None? then Applied(Some(Started(f, initialStop)), None)
    else
      var t := o.value;
      if SameSign(t.qty, f.amount) then Applied(Some(Added(t, f)), None)
      else
        var booked := Booked(t, f);
        if Reverses(t, f) then
          Applied(Some(Started(Excess(t, f), initialStop)), Some(Finished(booked, f, byStop)))
        else if Completes(t, f) then Applied(None, Some(Finished(booked, f, byStop)))
        else Applied(Some(booked.(qty := t.qty + f.amount)), None)
  }

  // ---- The ledger -------------------------------------------------------------------------------

  datatype State = State(seen: set<int>, lastFillAt: Time, open_: Option<OpenTrade>)

  datatype Result = Result(state: State, closed: seq<OpenTrade>)

  predicate Fresh(s: State, f: Fill) {
    f.id != 0 && f.id !in s.seen
  }

  function Take(s: State, f: Fill, ctx: Context, byStop: bool): Result {
    if !Fresh(s, f) then Result(s, [])
    else
      var applied := Apply(AccruedIfOpen(s.open_, f.time, f.price, ctx.fundingDailyRate), f, ctx.initialStop,
                           byStop || f.isStop);
      Result(State(s.seen + {f.id}, if f.time > s.lastFillAt then f.time else s.lastFillAt, applied.open_),
             if applied.closed.Some? then [applied.closed.value] else [])
  }

  function TakeAll(s: State, fills: seq<Fill>, ctx: Context, byStop: bool): Result {
    if fills == [] then Result(s, [])
    else
      var r := TakeAll(s, fills[..|fills| - 1], ctx, byStop);
      var last := Take(r.state, fills[|fills| - 1], ctx, byStop);
      Result(last.state, r.closed + last.closed)
  }

  function Excursion(o: OpenTrade, price: real): OpenTrade {
    var u := o.qty * (price - o.avg);
    o.(record := o.record.(mfe := Max(o.record.mfe, u), mae := Min(o.record.mae, u)))
  }

  /** Marking the open trade to the market: funding up to now, then the excursions. */
  function Marked(s: State, now: Time, price: real, dailyRate: real): State {
    if s.open_.None? || price <= 0.0 then s
    else s.(open_ := Some(Excursion(Accrued(s.open_.value, now, price, dailyRate), price)))
  }

  // ---- Persistence ------------------------------------------------------------------------------

  /** kept is the seen set cut to its largest SEEN_LIMIT members. */
  ghost predicate Newest(seen: set<int>, kept: set<int>) {
    && kept <= seen
    && |kept| == (if |seen| <= SEEN_LIMIT then |seen| else SEEN_LIMIT)
    && forall x, y :: x in kept && y in seen && y !in kept ==> y < x
  }

  /** The state a restart recovers. */
  ghost predicate Recovers(s: State, disk: State) {
    disk.lastFillAt == s.lastFillAt && disk.open_ == s.open_ && Newest(s.seen, disk.seen)
  }

  class FillLedger {
    var seen: set<int>
    var lastFillAt: Time
    var open_: Option<OpenTrade>
    var disk: State

    ghost function Current(): State
      reads this
    {
      State(seen, lastFillAt, open_)
    }

    /** What is on disk is what a restart from the current state needs. */
    ghost predicate Saved()
      reads this
    {
      Recovers(Current(), disk)
    }

    constructor Restore(disk: State)
      ensures Current() == disk && this.disk == disk
    {
      seen, lastFillAt, open_ := disk.seen, disk.lastFillAt, disk.open_;
      this.disk := disk;
    }

    /** The time from which the caller asks the exchange for fills. */
    method Since(now: Time) returns (from: Time)
      ensures from == if lastFillAt == 0 then now - DAY else lastFillAt - SECOND
    {
      from := if lastFillAt == 0 then now - DAY else lastFillAt - SECOND;
    }

    /** Sorting is by time alone; sorted is the order in which equal times happened to be taken. */
    method Process(now: Time, fills: seq<Fill>, ctx: Context, marketPrice: real, byStop: bool)
      returns (closed: seq<OpenTrade>, sorted: seq<Fill>)
      requires Saved()
      modifies this
      ensures multiset(sorted) == multiset(fills)
      ensures forall i, j :: 0 <= i < j < |sorted| ==> sorted[i].time <= sorted[j].time
      ensures var r := TakeAll(old(Current()), sorted, ctx, byStop);
        closed == r.closed && Current() == Marked(r.state, now, marketPrice, ctx.fundingDailyRate)
      ensures Saved()
    {
      hide Apply, AccruedIfOpen, Newest, Accrued, Excursion, SortBy;
      sorted := SortBy(fills, (f: Fill) => f.time);
      SortBySorts(fills, (f: Fill) => f.time);
      closed := [];
      var processed := false;
      ghost var start := Current();
      for i := 0 to |sorted|
        invariant TakeAll(start, sorted[..i], ctx, byStop) == Result(Current(), closed)
        invariant disk == old(disk)
        invariant !processed ==> Current() == start
      {
        assert sorted[..i + 1][..i] == sorted[..i];
        if sorted[i].id in seen || sorted[i].id == 0 {
          continue;
        }
        processed := true;
        var trade := TakeFill(sorted[i], ctx, byStop);
        if trade.Some? {
          closed := closed + [trade.value];
        }
      }
      assert sorted[..|sorted|] == sorted;
      MarkOpen(now, marketPrice, ctx.fundingDailyRate);
      if !processed && open_.None? {
        return;
      }
      Save();
    }

    /** One unseen fill: accrue, remember, apply. */
    method TakeFill(f: Fill, ctx: Context, byStop: bool) returns (closed: Option<OpenTrade>)
      requires Fresh(Current(), f)
      modifies `seen, `lastFillAt, `open_
      ensures Take(old(Current()), f, ctx, byStop)
           == Result(Current(), if closed.Some? then [closed.value] else [])
    {
      hide Apply, AccruedIfOpen;
      AccrueFunding(f.time, f.price, ctx.fundingDailyRate);
      seen := seen + {f.id};
      if f.time > lastFillAt {
        lastFillAt := f.time;
      }
      closed := ApplyFill(f, ctx.initialStop, byStop || f.isStop);
    }

    method MarkOpen(now: Time, marketPrice: real, dailyRate: real)
      modifies `open_
      ensures Current() == Marked(old(Current()), now, marketPrice, dailyRate)
    {
      hide Accrued;
      if open_.Some? && marketPrice > 0.0 {
        AccrueFunding(now, marketPrice, dailyRate);
        var o := open_.value;
        var u := o.qty * (marketPrice - o.avg);
        if u > o.record.mfe {
          o := o.(record := o.record.(mfe := u));
        }
        if u < o.record.mae {
          o := o.(record := o.record.(mae := u));
        }
        open_ := Some(o);
      }
    }

    method AccrueFunding(at: Time, price: real, dailyRate: real)
      modifies `open_
      ensures open_ == AccruedIfOpen(old(open_), at, price, dailyRate)
    {
      hide FundingCharge;
      if open_.None? || open_.value.qty >= 0.0 || price <= 0.0 || dailyRate <= 0.0 {
        return;
      }
      var o := open_.value;
      if o.lastFundingAt == 0 {
        open_ := Some(o.(lastFundingAt := at));
        return;
      }
      if at <= o.lastFundingAt {
        return;
      }
      o := o.(accruedFunding := o.accruedFunding + FundingCharge(o.qty, price, dailyRate, at - o.lastFundingAt));
      o := o.(lastFundingAt := at);
      open_ := Some(o);
    }

    method ApplyFill(f: Fill, initialStop: real, byStop: bool) returns (closed: Option<OpenTrade>)
      modifies `open_
      ensures Applied(open_, closed) == Apply(old(open_), f, initialStop, byStop)
    {
      hide FeeUsd, CloseFee, CloseGross, CloseNotional, AverageCost;
      if f.amount == 0.0 || f.price <= 0.0 {
        return None;
      }
      if open_.None? {
        open_ := Some(Started(f, initialStop));
        return None;
      }
      var o := open_.value;
      if SameSign(o.qty, f.amount) {
        var add := Abs(f.amount);
        o := o.(avg := AverageCost(o.avg, Abs(o.qty), f.price, add));
        o := o.(qty := o.qty + f.amount);
        o := o.(entryQuantity := o.entryQuantity + add);
        o := o.(record := o.record.(entryVwap := o.avg, quantity := o.entryQuantity));
        o := o.(initialRisk := o.initialRisk + add * Abs(f.price - o.record.initialStop));
        o := o.(fees := o.fees + FeeUsd(f));
        open_ := Some(o);
        return None;
      }
      var closeQty := Min(Abs(o.qty), Abs(f.amount));
      var before := o;
      o := o.(record := o.record.(gross := o.record.gross + CloseGross(before, f)));
      o := o.(fees := o.fees + CloseFee(before, f));
      o := o.(exitQuantity := o.exitQuantity + closeQty);
      o := o.(exitNotional := o.exitNotional + CloseNotional(before, f));
      open_ := Some(o);
      var remaining := o.qty + f.amount;
      if Abs(remaining) > DUST && !SameSign(remaining, o.qty) {
        closed := Finish(f, byStop);
        var excessFee := Max(0.0, FeeUsd(f) - CloseFee(before, f));
        open_ := Some(Started(Fill(f.id, f.time, remaining, f.price, excessFee, FaceValue, f.isStop), initialStop));
        return;
      }
      if Abs(remaining) <= DUST {
        closed := Finish(f, byStop);
        return;
      }
      open_ := Some(o.(qty := remaining));
      return None;
    }

    method Finish(f: Fill, byStop: bool) returns (closed: Option<OpenTrade>)
      modifies `open_
      ensures open_ == None
      ensures closed == if old(open_).None? then None else Some(Finished(old(open_).value, f, byStop))
    {
      if open_.None? {
        return None;
      }
      var o := open_.value;
      closed := Some(Finished(o, f, byStop));
      open_ := None;
    }

    method Save()
      modifies `disk
      ensures Saved()
    {
      var kept := KeepNewest();
      disk := State(kept, lastFillAt, open_);
    }

    method KeepNewest() returns (kept: set<int>)
      ensures Newest(seen, kept)
    {
      var ids := Elements(seen);
      if |ids| <= SEEN_LIMIT {
        return seen;
      }
      ids := Sorted(ids);
      StrictlyIncreasing(seen, ids);
      var newest := ids[|ids| - SEEN_LIMIT..];
      kept := SetOf(newest);
      SuffixIsNewest(seen, ids);
    }
  }


  lemma SuffixIsNewest(seen: set<int>, ids: seq<int>)
    requires multiset(ids) == multiset(seen) && |ids| == |seen| > SEEN_LIMIT
    requires forall i, j :: 0 <= i < j < |ids| ==> ids[i] < ids[j]
    ensures Newest(seen, SetOf(ids[|ids| - SEEN_LIMIT..]))
  {
    var newest := ids[|ids| - SEEN_LIMIT..];
    var kept := SetOf(newest);
    SetOfDistinct(newest);
    forall x ensures x in ids <==> x in seen {
      assert x in multiset(ids) <==> x in multiset(seen);
    }
    forall x: int, y: int | x in kept && y in seen && y !in kept ensures y < x {
      var i :| 0 <= i < |ids| && ids[i] == y;
      var cut := |ids| - SEEN_LIMIT;
      assert forall k :: cut <= k < |ids| ==> ids[k] == newest[k - cut];
    }
  }
}
