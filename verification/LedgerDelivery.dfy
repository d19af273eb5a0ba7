/**
 * Exactly-once accounting: overlapping batches of fills, in any order within a batch and across restarts that keep
 * only the newest seen identities, yield the same trades as one pass over the stream.
 */
module LedgerDelivery {
  import opened Numbers
  import opened Sequences
  import opened Domain
  import opened Ledger

  const EMPTY := State({}, 0, None)
  const NO_CONTEXT := Context(0.0, 0.0)

  /** The exchange's fills in time order: times and identities strictly increase. */
  ghost predicate Stream(fs: seq<Fill>) {
    && (forall k :: 0 <= k < |fs| ==> fs[k].time > 0 && fs[k].id > 0)
    && (forall i, j :: 0 <= i < j < |fs| ==> fs[i].time < fs[j].time && fs[i].id < fs[j].id)
  }

  /** A trade stripped of what depends on when and in which context it was looked at. */
  function Accounting(o: OpenTrade): OpenTrade {
    o.(accruedFunding := 0.0, lastFundingAt := 0, initialRisk := 0.0,
       record := o.record.(funding := 0.0, net := 0.0, rMultiple := 0.0, mfe := 0.0, mae := 0.0,
                           initialStop := 0.0, byStop := false))
  }

  function OpenAccounting(o: Option<OpenTrade>): Option<OpenTrade> {
    if o.None? then None else Some(Accounting(o.value))
  }

  function AllAccounting(c: seq<OpenTrade>): seq<OpenTrade> {
    seq(|c|, i requires 0 <= i < |c| => Accounting(c[i]))
  }

  /** One delivery: a batch of the stream's fills handed to Process, or a restart from disk. */
  datatype Delivery =
    | Batch(lo: nat, hi: nat, now: Time, ctx: Context, price: real, byStop: bool)
    | Restart(kept: set<int>)

  function Deliver(r: Result, fs: seq<Fill>, d: Delivery): Result
    requires d.Batch? ==> d.lo <= d.hi <= |fs|
  {
    match d
    case Restart(kept) => r.(state := r.state.(seen := kept))
    case Batch(lo, hi, now, ctx, price, byStop) =>
      var taken := TakeAll(r.state, fs[lo..hi], ctx, byStop);
      Result(Marked(taken.state, now, price, ctx.fundingDailyRate), r.closed + taken.closed)
  }

  /** How many fills of the stream have been delivered. */
  function Reach(n: nat, d: Delivery): nat {
    if d.Batch? && d.hi > n then d.hi else n
  }

  /** Fill k is recent enough for the next request, which asks from one second before the last fill. */
  predicate Requested(fs: seq<Fill>, n: nat, k: nat)
    requires n <= |fs| && k < |fs|
  {
    n == 0 || fs[k].time >= fs[n - 1].time - SECOND
  }

  /**
   * A batch starts no later than the fills already delivered and holds only requested ones; a restart keeps the
   * newest identities, and at most 2000 delivered fills are still being requested.
   */
  ghost predicate Admissible(s: State, fs: seq<Fill>, n: nat, d: Delivery)
    requires n <= |fs|
  {
    match d
    case Batch(lo, hi, _, _, _, _) => lo <= n && lo <= hi <= |fs| && forall k :: lo <= k < hi ==> Requested(fs, n, k)
    case Restart(kept) =>
      Newest(s.seen, kept) && forall k :: 0 <= k < n && Requested(fs, n, k) ==> n - k <= 2000
  }

  /** The reference: a single pass over the first n fills in no particular context. */
  function OnePass(fs: seq<Fill>, n: nat): Result
    requires n <= |fs|
  {
    TakeAll(EMPTY, fs[..n], NO_CONTEXT, false)
  }

  /** The ledger after n delivered fills: the reference's trades, and every requested delivered fill remembered. */
  ghost predicate Faithful(r: Result, fs: seq<Fill>, n: nat)
    requires n <= |fs|
  {
    && OpenAccounting(r.state.open_) == OpenAccounting(OnePass(fs, n).state.open_)
    && AllAccounting(r.closed) == AllAccounting(OnePass(fs, n).closed)
    && Remembers(r.state, fs, n)
  }

  ghost predicate Remembers(s: State, fs: seq<Fill>, n: nat)
    requires n <= |fs|
  {
    && s.lastFillAt == (if n == 0 then 0 else fs[n - 1].time)
    && (forall id :: id in s.seen ==> exists k :: 0 <= k < n && fs[k].id == id)
    && (forall k :: 0 <= k < n && Requested(fs, n, k) ==> fs[k].id in s.seen)
  }

  // ---- One fill -----------------------------------------------------------------------------------

  lemma AccrualIsInvisible(o: Option<OpenTrade>, at: Time, price: real, rate: real)
    ensures OpenAccounting(AccruedIfOpen(o, at, price, rate)) == OpenAccounting(o)
  {
    hide FundingCharge;
  }

  lemma MarkIsInvisible(s: State, now: Time, price: real, rate: real)
    ensures OpenAccounting(Marked(s, now, price, rate).open_) == OpenAccounting(s.open_)
    ensures Marked(s, now, price, rate).seen == s.seen && Marked(s, now, price, rate).lastFillAt == s.lastFillAt
  {
    hide FundingCharge;
  }

  lemma BookingIgnoresContext(o: OpenTrade, o': OpenTrade, f: Fill, b: bool, b': bool)
    requires Accounting(o) == Accounting(o')
    ensures Accounting(Booked(o, f)) == Accounting(Booked(o', f))
    ensures Accounting(Finished(Booked(o, f), f, b)) == Accounting(Finished(Booked(o', f), f, b'))
    ensures Excess(o, f) == Excess(o', f)
  {
    hide FeeUsd, Value, Share;
    var x, y := Booked(o, f), Booked(o', f);
    assert x.exitQuantity == y.exitQuantity && x.exitNotional == y.exitNotional;
  }

  /** What a fill does to the accounting depends on the accounting alone. */
  lemma ApplyIgnoresContext(
    o: Option<OpenTrade>, o': Option<OpenTrade>, f: Fill, stop: real, stop': real, b: bool, b': bool)
    requires OpenAccounting(o) == OpenAccounting(o')
    ensures OpenAccounting(Apply(o, f, stop, b).open_) == OpenAccounting(Apply(o', f, stop', b').open_)
    ensures OpenAccounting(Apply(o, f, stop, b).closed) == OpenAccounting(Apply(o', f, stop', b').closed)
  {
    hide FeeUsd, AverageCost, Value, Share;
    if o.Some? && Effective(f) && !SameSign(o.value.qty, f.amount) {
      BookingIgnoresContext(o.value, o'.value, f, b, b');
    }
  }

  /** The next fill of the stream is fresh, and taking it remembers it. */
  lemma TakeNext(s: State, fs: seq<Fill>, h: nat, ctx: Context, byStop: bool)
    requires Stream(fs) && h < |fs| && Remembers(s, fs, h)
    ensures Fresh(s, fs[h]) && Remembers(Take(s, fs[h], ctx, byStop).state, fs, h + 1)
  {
    hide Apply, AccruedIfOpen;
    var s' := Take(s, fs[h], ctx, byStop).state;
    forall id | id in s'.seen ensures exists k :: 0 <= k < h + 1 && fs[k].id == id {
      if id == fs[h].id {
        assert fs[h].id == id;
      }
    }
    forall k | 0 <= k < h + 1 && Requested(fs, h + 1, k) ensures fs[k].id in s'.seen {
      if k < h {
        assert Requested(fs, h, k);
      }
    }
  }

  lemma {:induction false} OnePassRemembers(fs: seq<Fill>, n: nat)
    requires Stream(fs) && n <= |fs|
    ensures Remembers(OnePass(fs, n).state, fs, n)
  {
    hide Take;
    if n > 0 {
      OnePassRemembers(fs, n - 1);
      assert fs[..n][..n - 1] == fs[..n - 1];
      TakeNext(OnePass(fs, n - 1).state, fs, n - 1, NO_CONTEXT, false);
    }
  }

  /** Taking the next fill keeps step with the reference. */
  lemma TakeNextKeepsStep(r: Result, fs: seq<Fill>, h: nat, ctx: Context, byStop: bool)
    requires Stream(fs) && h < |fs| && Faithful(r, fs, h)
    ensures var t := Take(r.state, fs[h], ctx, byStop);
      Faithful(Result(t.state, r.closed + t.closed), fs, h + 1)
  {
    hide Apply, AccruedIfOpen, Accounting;
    var ref := OnePass(fs, h);
    var f := fs[h];
    OnePassRemembers(fs, h);
    TakeNext(r.state, fs, h, ctx, byStop);
    TakeNext(ref.state, fs, h, NO_CONTEXT, false);
    assert fs[..h + 1][..h] == fs[..h];
    AccrualIsInvisible(r.state.open_, f.time, f.price, ctx.fundingDailyRate);
    AccrualIsInvisible(ref.state.open_, f.time, f.price, NO_CONTEXT.fundingDailyRate);
    ApplyIgnoresContext(AccruedIfOpen(r.state.open_, f.time, f.price, ctx.fundingDailyRate),
                        AccruedIfOpen(ref.state.open_, f.time, f.price, NO_CONTEXT.fundingDailyRate),
                        f, ctx.initialStop, NO_CONTEXT.initialStop, byStop || f.isStop, f.isStop);
    AccountingAppends(r.closed, Take(r.state, f, ctx, byStop).closed);
    AccountingAppends(ref.closed, Take(ref.state, f, NO_CONTEXT, false).closed);
  }

  lemma AccountingAppends(a: seq<OpenTrade>, b: seq<OpenTrade>)
    ensures AllAccounting(a + b) == AllAccounting(a) + AllAccounting(b)
  {
    hide Accounting;
  }

  lemma {:induction false} BatchKeepsStep(
    r: Result, fs: seq<Fill>, n: nat, lo: nat, hi: nat, ctx: Context, byStop: bool)
    requires Stream(fs) && n <= |fs| && Faithful(r, fs, n)
    requires lo <= n && lo <= hi <= |fs| && forall k :: lo <= k < hi ==> Requested(fs, n, k)
    ensures var t := TakeAll(r.state, fs[lo..hi], ctx, byStop);
      Faithful(Result(t.state, r.closed + t.closed), fs, if hi > n then hi else n)
    decreases hi
  {
    hide Take, Accounting, Remembers;
    if hi == lo {
      assert r.closed + [] == r.closed;
    } else {
      var h := hi - 1;
      assert fs[lo..hi][..|fs[lo..hi]| - 1] == fs[lo..h];
      BatchKeepsStep(r, fs, n, lo, h, ctx, byStop);
      var t := TakeAll(r.state, fs[lo..h], ctx, byStop);
      var m := if h > n then h else n;
      if h < n {
        SeenIsSkipped(r.state, fs, n, lo, h, ctx, byStop);
        assert r.closed + (t.closed + []) == r.closed + t.closed;
      } else {
        TakeNextKeepsStep(Result(t.state, r.closed + t.closed), fs, h, ctx, byStop);
        var last := Take(t.state, fs[h], ctx, byStop);
        assert r.closed + (t.closed + last.closed) == r.closed + t.closed + last.closed;
      }
    }
  }

  lemma {:induction false} TakeAllKeepsSeen(s: State, fills: seq<Fill>, ctx: Context, byStop: bool)
    ensures s.seen <= TakeAll(s, fills, ctx, byStop).state.seen
  {
    hide Apply, AccruedIfOpen;
    if fills != [] {
      TakeAllKeepsSeen(s, fills[..|fills| - 1], ctx, byStop);
    }
  }

  /** A requested fill that was delivered before is recognised and skipped. */
  lemma SeenIsSkipped(s: State, fs: seq<Fill>, n: nat, lo: nat, h: nat, ctx: Context, byStop: bool)
    requires n <= |fs| && Remembers(s, fs, n) && lo <= h < n && Requested(fs, n, h)
    ensures var t := TakeAll(s, fs[lo..h], ctx, byStop).state; Take(t, fs[h], ctx, byStop) == Result(t, [])
  {
    hide Apply, AccruedIfOpen;
    TakeAllKeepsSeen(s, fs[lo..h], ctx, byStop);
  }

  // ---- Restarts -----------------------------------------------------------------------------------

  function IdsBetween(fs: seq<Fill>, lo: nat, hi: nat): (ids: set<int>)
    requires lo <= hi <= |fs|
    ensures |ids| <= hi - lo
    ensures forall k :: lo <= k < hi ==> fs[k].id in ids
    decreases hi
  {
    if lo == hi then {} else IdsBetween(fs, lo, hi - 1) + {fs[hi - 1].id}
  }

  lemma SubsetSize(a: set<int>, b: set<int>)
    requires a <= b
    ensures |a| <= |b|
  {
    assert b == a + (b - a);
  }

  /** The newest identities include every one that can still be requested. */
  lemma NewestCoversRequests(s: State, fs: seq<Fill>, n: nat, kept: set<int>)
    requires Stream(fs) && n <= |fs| && Remembers(s, fs, n)
    requires Newest(s.seen, kept) && forall k :: 0 <= k < n && Requested(fs, n, k) ==> n - k <= 2000
    ensures Remembers(s.(seen := kept), fs, n)
  {
    forall k | 0 <= k < n && Requested(fs, n, k) ensures fs[k].id in kept {
      if fs[k].id !in kept {
        forall id | id in kept ensures id in IdsBetween(fs, k + 1, n) {
          assert fs[k].id < id;
          var m :| 0 <= m < n && fs[m].id == id;
          assert m > k;
        }
        SubsetSize(kept, IdsBetween(fs, k + 1, n));
        SubsetSize(kept, s.seen);
        AllKept(s.seen, kept);
      }
    }
  }

  lemma AllKept(seen: set<int>, kept: set<int>)
    requires Newest(seen, kept) && |kept| < 2000
    ensures kept == seen
  {
    assert |seen| == |kept| + |seen - kept| by { assert seen == kept + (seen - kept); }
  }

  /** What is saved remembers everything up to 2000 identities, and else the 2000 largest. */
  lemma SavedIsBounded(s: State, disk: State)
    requires Recovers(s, disk)
    ensures |disk.seen| <= 2000 && (|s.seen| <= 2000 ==> disk.seen == s.seen)
    ensures |s.seen| > 2000 ==>
      |disk.seen| == 2000 && forall x, y :: x in disk.seen && y in s.seen - disk.seen ==> y < x
  {
    if |s.seen| <= 2000 {
      SmallIsKept(s.seen, disk.seen);
    }
  }

  lemma SmallIsKept(seen: set<int>, kept: set<int>)
    requires kept <= seen && |kept| == |seen|
    ensures kept == seen
  {
    assert seen == kept + (seen - kept) && |seen| == |kept| + |seen - kept|;
  }

  // ---- The theorem --------------------------------------------------------------------------------

  ghost predicate AllAdmissible(r: Result, fs: seq<Fill>, n: nat, ds: seq<Delivery>)
    requires n <= |fs|
    decreases |ds|
  {
    ds == [] ||
    (Admissible(r.state, fs, n, ds[0]) && AllAdmissible(Deliver(r, fs, ds[0]), fs, Reach(n, ds[0]), ds[1..]))
  }

  ghost function DeliverAll(r: Result, fs: seq<Fill>, n: nat, ds: seq<Delivery>): Result
    requires n <= |fs| && AllAdmissible(r, fs, n, ds)
    decreases |ds|
  {
    if ds == [] then r else DeliverAll(Deliver(r, fs, ds[0]), fs, Reach(n, ds[0]), ds[1..])
  }

  function ReachAll(n: nat, ds: seq<Delivery>): nat
    decreases |ds|
  {
    if ds == [] then n else ReachAll(Reach(n, ds[0]), ds[1..])
  }

  lemma DeliveryKeepsStep(r: Result, fs: seq<Fill>, n: nat, d: Delivery)
    requires Stream(fs) && n <= |fs| && Faithful(r, fs, n) && Admissible(r.state, fs, n, d)
    ensures Faithful(Deliver(r, fs, d), fs, Reach(n, d))
  {
    hide TakeAll, Marked, Newest;
    match d
    case Batch(lo, hi, now, ctx, price, byStop) =>
      BatchKeepsStep(r, fs, n, lo, hi, ctx, byStop);
      MarkIsInvisible(TakeAll(r.state, fs[lo..hi], ctx, byStop).state, now, price, ctx.fundingDailyRate);
    case Restart(kept) =>
      NewestCoversRequests(r.state, fs, n, kept);
  }

  /**
   * Exactly once: after any admissible deliveries the open trade and every closed trade are those of one pass
   * over the delivered part of the stream.
   */
  lemma {:induction false} DeliveredExactlyOnce(r: Result, fs: seq<Fill>, n: nat, ds: seq<Delivery>)
    requires Stream(fs) && n <= |fs| && Faithful(r, fs, n) && AllAdmissible(r, fs, n, ds)
    ensures ReachAll(n, ds) <= |fs| && Faithful(DeliverAll(r, fs, n, ds), fs, ReachAll(n, ds))
    decreases |ds|
  {
    hide Deliver, Faithful;
    if ds != [] {
      DeliveryKeepsStep(r, fs, n, ds[0]);
      DeliveredExactlyOnce(Deliver(r, fs, ds[0]), fs, Reach(n, ds[0]), ds[1..]);
    }
  }

  /** From an empty ledger, any admissible deliveries leave the accounting of one pass over what was delivered. */
  lemma DeliveredFromEmpty(fs: seq<Fill>, ds: seq<Delivery>)
    requires Stream(fs) && AllAdmissible(Result(EMPTY, []), fs, 0, ds)
    ensures ReachAll(0, ds) <= |fs|
    ensures var end, once := DeliverAll(Result(EMPTY, []), fs, 0, ds), OnePass(fs, ReachAll(0, ds));
      && OpenAccounting(end.state.open_) == OpenAccounting(once.state.open_)
      && AllAccounting(end.closed) == AllAccounting(once.closed)
  {
    assert fs[..0] == [];
    DeliveredExactlyOnce(Result(EMPTY, []), fs, 0, ds);
  }

  // ---- The order inside a batch does not matter -----------------------------------------------------

  ghost predicate Increasing(s: seq<Fill>) {
    forall i, j :: 0 <= i < j < |s| ==> s[i].time < s[j].time
  }

  ghost predicate InOrder(s: seq<Fill>) {
    forall i, j :: 0 <= i < j < |s| ==> s[i].time <= s[j].time
  }

  lemma LatestIsLast(slice: seq<Fill>, sorted: seq<Fill>)
    requires Increasing(slice) && InOrder(sorted) && multiset(sorted) == multiset(slice) && slice != []
    ensures |sorted| == |slice| && sorted[|sorted| - 1] == slice[|slice| - 1]
  {
    SameElements(sorted, slice);
    var n := |slice| - 1;
    assert sorted[n] in slice && slice[n] in sorted;
    var i :| 0 <= i < |sorted| && sorted[i] == slice[n];
    var j :| 0 <= j < |slice| && slice[j] == sorted[n];
  }

  lemma DropLast(s: seq<Fill>)
    requires s != []
    ensures Increasing(s) ==> Increasing(s[..|s| - 1])
    ensures InOrder(s) ==> InOrder(s[..|s| - 1])
    ensures multiset(s[..|s| - 1]) == multiset(s) - multiset{s[|s| - 1]}
  {
    assert s == s[..|s| - 1] + [s[|s| - 1]];
  }

  /** Process sorts a batch by time; for a slice of the stream there is only one such order. */
  lemma {:induction false} SortedBatchIsTheSlice(slice: seq<Fill>, sorted: seq<Fill>)
    requires Increasing(slice) && InOrder(sorted) && multiset(sorted) == multiset(slice)
    ensures sorted == slice
    decreases |slice|
  {
    hide Increasing, InOrder;
    if slice == [] {
      assert |multiset(sorted)| == 0;
    } else {
      LatestIsLast(slice, sorted);
      DropLast(slice);
      DropLast(sorted);
      SortedBatchIsTheSlice(slice[..|slice| - 1], sorted[..|sorted| - 1]);
      assert slice == slice[..|slice| - 1] + [slice[|slice| - 1]];
      assert sorted == sorted[..|sorted| - 1] + [sorted[|sorted| - 1]];
    }
  }

  // ---- Process and Restore ------------------------------------------------------------------------

  /**
   * What happens to a ledger, with what the contracts of Process and Restore say of it: a batch, in the time order it
   * was taken in, or a restart from what was on disk.
   */
  datatype Episode =
    | Processed(order: seq<Fill>, lo: nat, hi: nat, now: Time, ctx: Context, price: real, byStop: bool)
    | Restored(disk: State)

  function AfterEpisode(r: Result, e: Episode): Result {
    match e
    case Processed(order, _, _, now, ctx, price, byStop) =>
      var taken := TakeAll(r.state, order, ctx, byStop);
      Result(Marked(taken.state, now, price, ctx.fundingDailyRate), r.closed + taken.closed)
    case Restored(disk) => Result(disk, r.closed)
  }

  /** The batch holds requested fills of the stream in any order; the disk recovers the ledger as it was. */
  ghost predicate Happens(r: Result, fs: seq<Fill>, n: nat, e: Episode)
    requires n <= |fs|
  {
    match e
    case Processed(order, lo, hi, _, _, _, _) =>
      && lo <= n && lo <= hi <= |fs| && multiset(order) == multiset(fs[lo..hi]) && InOrder(order)
      && forall k :: lo <= k < hi ==> Requested(fs, n, k)
    case Restored(disk) =>
      Recovers(r.state, disk) && forall k :: 0 <= k < n && Requested(fs, n, k) ==> n - k <= 2000
  }

  function AsDelivery(e: Episode): Delivery {
    match e
    case Processed(_, lo, hi, now, ctx, price, byStop) => Batch(lo, hi, now, ctx, price, byStop)
    case Restored(disk) => Restart(disk.seen)
  }

  lemma EpisodeIsDelivery(r: Result, fs: seq<Fill>, n: nat, e: Episode)
    requires Stream(fs) && n <= |fs| && Happens(r, fs, n, e)
    ensures Admissible(r.state, fs, n, AsDelivery(e)) && AfterEpisode(r, e) == Deliver(r, fs, AsDelivery(e))
    ensures Reach(n, AsDelivery(e)) <= |fs|
  {
    hide TakeAll, Marked, Newest;
    if e.Processed? {
      SortedBatchIsTheSlice(fs[e.lo..e.hi], e.order);
    }
  }

  ghost predicate AllHappen(r: Result, fs: seq<Fill>, n: nat, es: seq<Episode>)
    requires n <= |fs|
    decreases |es|
  {
    es == [] ||
    (Happens(r, fs, n, es[0]) && AllHappen(AfterEpisode(r, es[0]), fs, Reach(n, AsDelivery(es[0])), es[1..]))
  }

  function AfterEpisodes(r: Result, es: seq<Episode>): Result
    decreases |es|
  {
    if es == [] then r else AfterEpisodes(AfterEpisode(r, es[0]), es[1..])
  }

  function AsDeliveries(es: seq<Episode>): seq<Delivery> {
    if es == [] then [] else [AsDelivery(es[0])] + AsDeliveries(es[1..])
  }

  lemma {:induction false} EpisodesAreDeliveries(r: Result, fs: seq<Fill>, n: nat, es: seq<Episode>)
    requires Stream(fs) && n <= |fs| && AllHappen(r, fs, n, es)
    ensures AllAdmissible(r, fs, n, AsDeliveries(es))
    ensures AfterEpisodes(r, es) == DeliverAll(r, fs, n, AsDeliveries(es))
    decreases |es|
  {
    hide Happens, Admissible, AfterEpisode, Deliver;
    if es != [] {
      EpisodeIsDelivery(r, fs, n, es[0]);
      var ds := AsDeliveries(es);
      assert ds[0] == AsDelivery(es[0]) && ds[1..] == AsDeliveries(es[1..]);
      EpisodesAreDeliveries(AfterEpisode(r, es[0]), fs, Reach(n, AsDelivery(es[0])), es[1..]);
    }
  }

  /**
   * Any calls of Process on overlapping batches, each in any order, and any restarts from disk leave an empty ledger
   * with the accounting of one pass over the fills delivered.
   */
  lemma ProcessedExactlyOnce(fs: seq<Fill>, es: seq<Episode>)
    requires Stream(fs) && AllHappen(Result(EMPTY, []), fs, 0, es)
    ensures ReachAll(0, AsDeliveries(es)) <= |fs|
    ensures var end, once := AfterEpisodes(Result(EMPTY, []), es), OnePass(fs, ReachAll(0, AsDeliveries(es)));
      && OpenAccounting(end.state.open_) == OpenAccounting(once.state.open_)
      && AllAccounting(end.closed) == AllAccounting(once.closed)
  {
    EpisodesAreDeliveries(Result(EMPTY, []), fs, 0, es);
    DeliveredFromEmpty(fs, AsDeliveries(es));
  }
}
