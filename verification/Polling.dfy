/** The cached public-data schedules: per-stream back-off and a pause shared after rate limits. */
module Polling {
  import opened Domain

  const MAXIMUM_BACKOFF: Duration := 5 * MINUTE

  function Larger(x: int, y: int): int {
    if x < y then y else x
  }

  function Smaller(x: int, y: int): int {
    if y < x then y else x
  }

  /** When the next call is due (0 means at once) and the current back-off. */
  datatype Schedule = Schedule(next: Time, backoff: Duration) {
    predicate Due(now: Time) {
      next == 0 || now >= next
    }
  }

  const IDLE := Schedule(0, 0)

  function BackoffFloor(interval: Duration, rateLimited: bool): Duration {
    var floor := Larger(interval, SECOND);
    if rateLimited then Larger(floor, MINUTE) else floor
  }

  function Grown(backoff: Duration, floor: Duration): Duration {
    Smaller(if backoff < floor then floor else 2 * backoff, MAXIMUM_BACKOFF)
  }

  function Failed(s: Schedule, now: Time, interval: Duration, rateLimited: bool): Schedule {
    var b := Grown(s.backoff, BackoffFloor(interval, rateLimited));
    Schedule(now + b, b)
  }

  function Succeeded(now: Time, interval: Duration): Schedule {
    Schedule(now + interval, 0)
  }

  /** What the endpoint would answer if called now. */
  datatype Answer = Data | Refused(rateLimited: bool)

  /** A stream with its schedule; the two streams share the pause. */
  datatype Stream = Stream(interval: Duration, schedule: Schedule)

  datatype Feeds = Feeds(trades: Stream, funding: Stream, blockedUntil: Time)

  predicate Calls(f: Feeds, s: Stream, now: Time) {
    now >= f.blockedUntil && s.schedule.Due(now)
  }

  function Polled(s: Stream, now: Time, a: Answer): Stream {
    match a
    case Data => s.(schedule := Succeeded(now, s.interval))
    case Refused(limited) => s.(schedule := Failed(s.schedule, now, s.interval, limited))
  }

  function PauseAfter(blocked: Time, s: Stream, a: Answer): Time {
    if a == Refused(true) then Larger(blocked, s.schedule.next) else blocked
  }

  datatype Which = MarketTrades | FundingTicker

  function StreamOf(f: Feeds, w: Which): Stream {
    if w == MarketTrades then f.trades else f.funding
  }

  /** One request for a stream's data, answered from the cache unless the stream may call. */
  function Requested(f: Feeds, w: Which, now: Time, a: Answer): Feeds {
    var s := StreamOf(f, w);
    if !Calls(f, s, now) then f
    else
      var s' := Polled(s, now, a);
      var g := if w == MarketTrades then f.(trades := s') else f.(funding := s');
      g.(blockedUntil := PauseAfter(f.blockedUntil, s', a))
  }

  /** The funding rate served by a tick. */
  function ServedFunding(cached: FundingRate, called: bool, now: Time, a: Answer, fetched: FundingRate): FundingRate {
    if !called then cached
    else if a == Data then fetched
    else if cached.updatedAt == 0 then FundingRate(false, 0.0, now) else cached
  }

  class PollSchedule {
    var next: Time
    var backoff: Duration

    constructor ()
      ensures Current() == IDLE
    {
      next, backoff := 0, 0;
    }

    function Current(): Schedule
      reads this
    {
      Schedule(next, backoff)
    }

    method Due(now: Time) returns (due: bool)
      ensures due == Current().Due(now)
    {
      due := next == 0 || now >= next;
    }

    method Succeed(now: Time, interval: Duration)
      modifies this
      ensures Current() == Succeeded(now, interval)
    {
      backoff := 0;
      next := now + interval;
    }

    method Fail(now: Time, interval: Duration, rateLimited: bool) returns (retry: Duration)
      modifies this
      ensures Current() == Failed(old(Current()), now, interval, rateLimited) && retry == backoff
    {
      var floor := interval;
      if floor < SECOND {
        floor := SECOND;
      }
      if rateLimited && floor < MINUTE {
        floor := MINUTE;
      }
      if backoff < floor {
        backoff := floor;
      } else {
        backoff := backoff * 2;
      }
      if backoff > MAXIMUM_BACKOFF {
        backoff := MAXIMUM_BACKOFF;
      }
      next := now + backoff;
      return backoff;
    }
  }

  class PublicFeeds {
    const tradesInterval: Duration
    const fundingInterval: Duration
    const marketPoll: PollSchedule
    const fundingPoll: PollSchedule
    var publicBlocked: Time
    var marketTrades: seq<PublicTrade>
    var funding: FundingRate

    constructor (tradesInterval: Duration, fundingInterval: Duration)
      ensures fresh(marketPoll) && fresh(fundingPoll) && marketPoll != fundingPoll
      ensures Current() == Feeds(Stream(tradesInterval, IDLE), Stream(fundingInterval, IDLE), 0)
      ensures marketTrades == [] && funding == FundingRate(false, 0.0, 0)
    {
      this.tradesInterval, this.fundingInterval := tradesInterval, fundingInterval;
      marketPoll := new PollSchedule();
      fundingPoll := new PollSchedule();
      publicBlocked := 0;
      marketTrades, funding := [], FundingRate(false, 0.0, 0);
    }

    function Current(): Feeds
      reads this, marketPoll, fundingPoll
    {
      Feeds(Stream(tradesInterval, marketPoll.Current()), Stream(fundingInterval, fundingPoll.Current()), publicBlocked)
    }

    /** Fresh trades replace the cached ones; without a call, or after a refusal, the cached ones are served. */
    method TradesForTick(now: Time, answer: Answer, fetched: seq<PublicTrade>)
      returns (called: bool, trades: seq<PublicTrade>)
      requires marketPoll != fundingPoll
      modifies `publicBlocked, `marketTrades, marketPoll
      ensures trades == marketTrades == if called && answer == Data then fetched else old(marketTrades)
      ensures Current() == Requested(old(Current()), MarketTrades, now, answer)
      ensures called == old(Calls(Current(), Current().trades, now))
    {
      var due := marketPoll.Due(now);
      if now < publicBlocked || !due {
        return false, marketTrades;
      }
      match answer {
        case Data =>
          marketTrades := fetched;
          marketPoll.Succeed(now, tradesInterval);
        case Refused(rateLimited) =>
          var retry := marketPoll.Fail(now, tradesInterval, rateLimited);
          if rateLimited {
            BlockPublicEndpointUntil(now + retry);
          }
      }
      return true, marketTrades;
    }

    /** The same for the funding rate; a first refusal leaves an invalid rate of this time. */
    method FundingForTick(now: Time, answer: Answer, fetched: FundingRate) returns (called: bool, rate: FundingRate)
      requires marketPoll != fundingPoll
      modifies `publicBlocked, `funding, fundingPoll
      ensures rate == funding == ServedFunding(old(funding), called, now, answer, fetched)
      ensures Current() == Requested(old(Current()), FundingTicker, now, answer)
      ensures called == old(Calls(Current(), Current().funding, now))
    {
      var due := fundingPoll.Due(now);
      if now < publicBlocked || !due {
        return false, funding;
      }
      match answer {
        case Data =>
          funding := fetched;
          fundingPoll.Succeed(now, fundingInterval);
        case Refused(rateLimited) =>
          var retry := fundingPoll.Fail(now, fundingInterval, rateLimited);
          if rateLimited {
            BlockPublicEndpointUntil(now + retry);
          }
          if funding.updatedAt == 0 {
            funding := FundingRate(false, 0.0, now);
          }
      }
      return true, funding;
    }

    method BlockPublicEndpointUntil(until: Time)
      modifies `publicBlocked
      ensures publicBlocked == Larger(old(publicBlocked), until)
    {
      if until > publicBlocked {
        publicBlocked := until;
      }
    }
  }

  // ---- Back-off growth ----------------------------------------------------------------------------

  function Pow2(k: nat): int {
    if k == 0 then 1 else 2 * Pow2(k - 1)
  }

  /** The schedule after a success at a time followed by failures of one kind at the given times. */
  function AfterFailures(s: Schedule, times: seq<Time>, interval: Duration, rateLimited: bool): Schedule {
    if times == [] then s
    else
      var was := AfterFailures(s, times[..|times| - 1], interval, rateLimited);
      Failed(was, times[|times| - 1], interval, rateLimited)
  }

  lemma {:induction false} Pow2Positive(k: nat)
    ensures Pow2(k) >= 1
  {
    if k > 0 {
      Pow2Positive(k - 1);
    }
  }

  lemma GrownFromLevel(floor: Duration, p: int)
    requires floor >= SECOND && p >= 1
    ensures Grown(Smaller(MAXIMUM_BACKOFF, floor * p), floor) == Smaller(MAXIMUM_BACKOFF, floor * (2 * p))
  {
    hide Grown, Smaller;
    var level := floor * p;
    assert level >= floor by { AtLeastOnce(floor, p); }
    assert floor * (2 * p) == 2 * level;
    GrownFrom(floor, level);
  }

  lemma AtLeastOnce(x: int, p: int)
    requires x >= 0 && p >= 1
    ensures x * p >= x
  {
  }

  lemma GrownFrom(floor: Duration, level: Duration)
    requires floor >= SECOND && level >= floor
    ensures Grown(Smaller(MAXIMUM_BACKOFF, level), floor) == Smaller(MAXIMUM_BACKOFF, 2 * level)
  {
  }

  /**
   * k failures of one kind after a success give a back-off of the floor doubled k - 1 times, at most five minutes; the
   * floor is the interval, but at least a second, and a minute for a rate limit. The next call waits that long.
   */
  lemma {:induction false} BackoffDoubles(s: Schedule, times: seq<Time>, interval: Duration, rateLimited: bool)
    requires s.backoff == 0 && times != []
    ensures var floor := Larger(interval, if rateLimited then 60 * SECOND else SECOND);
      var after := AfterFailures(s, times, interval, rateLimited);
      after.backoff == Smaller(300 * SECOND, floor * Pow2(|times| - 1))
      && after.next == times[|times| - 1] + after.backoff
  {
    var floor, front := BackoffFloor(interval, rateLimited), times[..|times| - 1];
    if front != [] {
      BackoffDoubles(s, front, interval, rateLimited);
      Pow2Positive(|front| - 1);
      GrownFromLevel(floor, Pow2(|front| - 1));
    } else {
      assert AfterFailures(s, front, interval, rateLimited) == s;
    }
  }

  // ---- Runs ---------------------------------------------------------------------------------------

  datatype Request = Request(which: Which, now: Time, answer: Answer)

  function Run(f: Feeds, rs: seq<Request>): Feeds {
    if rs == [] then f
    else
      var r := rs[|rs| - 1];
      Requested(Run(f, rs[..|rs| - 1]), r.which, r.now, r.answer)
  }

  predicate CallsAt(f: Feeds, rs: seq<Request>, k: nat)
    requires k < |rs|
  {
    var g := Run(f, rs[..k]);
    Calls(g, StreamOf(g, rs[k].which), rs[k].now)
  }

  predicate ValidFeeds(f: Feeds) {
    f.trades.interval > 0 && f.funding.interval > 0
  }

  lemma {:induction false} RunSplit(f: Feeds, a: seq<Request>, b: seq<Request>)
    ensures Run(f, a + b) == Run(Run(f, a), b)
  {
    if b == [] {
      assert a + b == a;
    } else {
      assert (a + b)[..|a + b| - 1] == a + b[..|b| - 1];
      RunSplit(f, a, b[..|b| - 1]);
    }
  }

  lemma {:induction false} IntervalsAreFixed(f: Feeds, rs: seq<Request>)
    ensures var g := Run(f, rs);
      g.trades.interval == f.trades.interval && g.funding.interval == f.funding.interval
  {
    if rs != [] {
      IntervalsAreFixed(f, rs[..|rs| - 1]);
    }
  }

  /** The shared pause never moves back. */
  lemma {:induction false} PauseNeverShrinks(f: Feeds, rs: seq<Request>)
    ensures Run(f, rs).blockedUntil >= f.blockedUntil
  {
    if rs != [] {
      PauseNeverShrinks(f, rs[..|rs| - 1]);
    }
  }

  /** After a call the schedule is set at least the interval (or five minutes) ahead. */
  lemma CallSetsSchedule(f: Feeds, w: Which, now: Time, a: Answer)
    requires ValidFeeds(f) && now > 0 && Calls(f, StreamOf(f, w), now)
    ensures StreamOf(Requested(f, w, now, a), w).schedule.next
         >= now + Smaller(StreamOf(f, w).interval, MAXIMUM_BACKOFF)
  {
  }

  /** A schedule set ahead stays at least there. */
  lemma {:induction false} ScheduleNeverShrinks(f: Feeds, rs: seq<Request>, w: Which, t: Time)
    requires ValidFeeds(f) && t > 0 && StreamOf(f, w).schedule.next >= t
    requires forall k :: 0 <= k < |rs| ==> rs[k].now > 0
    ensures StreamOf(Run(f, rs), w).schedule.next >= t
  {
    if rs != [] {
      var front, r := rs[..|rs| - 1], rs[|rs| - 1];
      ScheduleNeverShrinks(f, front, w, t);
      IntervalsAreFixed(f, front);
      var g := Run(f, front);
      if r.which == w && Calls(g, StreamOf(g, w), r.now) {
        CallSetsSchedule(g, w, r.now, r.answer);
      }
    }
  }

  /** Two calls of one stream are at least its interval apart, or five minutes if the interval is longer. */
  lemma CallsAreSpaced(f: Feeds, rs: seq<Request>, i: nat, j: nat)
    requires ValidFeeds(f) && i < j < |rs| && rs[i].which == rs[j].which
    requires forall k :: 0 <= k < |rs| ==> rs[k].now > 0
    requires CallsAt(f, rs, i) && CallsAt(f, rs, j)
    ensures rs[j].now >= rs[i].now + Smaller(StreamOf(f, rs[i].which).interval, MAXIMUM_BACKOFF)
  {
    var w := rs[i].which;
    var g := Run(f, rs[..i]);
    IntervalsAreFixed(f, rs[..i]);
    CallSetsSchedule(g, w, rs[i].now, rs[i].answer);
    assert rs[..i + 1][..i] == rs[..i];
    var h := Run(f, rs[..i + 1]);
    IntervalsAreFixed(f, rs[..i + 1]);
    assert rs[..j] == rs[..i + 1] + rs[i + 1..j];
    RunSplit(f, rs[..i + 1], rs[i + 1..j]);
    ScheduleNeverShrinks(h, rs[i + 1..j], w, rs[i].now + Smaller(StreamOf(f, w).interval, MAXIMUM_BACKOFF));
  }

  /** After an answer with data a stream is due again exactly its interval later, and its back-off starts anew. */
  lemma DueAfterData(f: Feeds, rs: seq<Request>, i: nat, j: nat)
    requires i < j < |rs| && CallsAt(f, rs, i) && rs[i].answer == Data && rs[j].which == rs[i].which
    requires forall k :: i < k < j ==> rs[k].which != rs[i].which
    requires rs[i].now + StreamOf(f, rs[i].which).interval != 0
    ensures var g, s := Run(f, rs[..j]), StreamOf(Run(f, rs[..j]), rs[i].which);
      && s.schedule == Schedule(rs[i].now + StreamOf(f, rs[i].which).interval, 0)
      && (CallsAt(f, rs, j) <==>
            rs[j].now >= rs[i].now + StreamOf(f, rs[i].which).interval && rs[j].now >= g.blockedUntil)
  {
    var w := rs[i].which;
    assert rs[..i + 1][..i] == rs[..i];
    IntervalsAreFixed(f, rs[..i]);
    assert rs[..j] == rs[..i + 1] + rs[i + 1..j];
    RunSplit(f, rs[..i + 1], rs[i + 1..j]);
    OthersLeaveAlone(Run(f, rs[..i + 1]), rs[i + 1..j], w);
  }

  lemma {:induction false} OthersLeaveAlone(f: Feeds, rs: seq<Request>, w: Which)
    requires forall k :: 0 <= k < |rs| ==> rs[k].which != w
    ensures StreamOf(Run(f, rs), w) == StreamOf(f, w)
  {
    if rs != [] {
      OthersLeaveAlone(f, rs[..|rs| - 1], w);
    }
  }

  /** Both streams start due, with their back-off at its floor. */
  lemma StartsAtOnce(trades: Duration, funding: Duration, now: Time, w: Which, rateLimited: bool)
    requires now >= 0
    ensures var f := Feeds(Stream(trades, IDLE), Stream(funding, IDLE), 0);
      && Calls(f, StreamOf(f, w), now)
      && StreamOf(Requested(f, w, now, Refused(rateLimited)), w).schedule.backoff
         == Smaller(300 * SECOND, Larger(if w == MarketTrades then trades else funding,
                                         if rateLimited then 60 * SECOND else SECOND))
  {
  }

  /** Only a rate limit pauses the streams. */
  lemma {:induction false} OnlyRateLimitsPause(f: Feeds, rs: seq<Request>)
    requires forall k :: 0 <= k < |rs| ==> rs[k].answer != Refused(true)
    ensures Run(f, rs).blockedUntil == f.blockedUntil
  {
    if rs != [] {
      OnlyRateLimitsPause(f, rs[..|rs| - 1]);
    }
  }

  /** A rate limit keeps both streams from calling for at least a minute. */
  lemma RateLimitPausesAMinute(f: Feeds, rs: seq<Request>, i: nat, j: nat)
    requires i < j < |rs| && CallsAt(f, rs, i) && rs[i].answer == Refused(true) && CallsAt(f, rs, j)
    ensures rs[j].now >= rs[i].now + 60 * SECOND
  {
    assert rs[..i + 1][..i] == rs[..i];
    RateLimitPausesBoth(f, rs, i, j);
  }

  /** A rate-limited call pauses both streams: neither calls again before its retry time. */
  lemma RateLimitPausesBoth(f: Feeds, rs: seq<Request>, i: nat, j: nat)
    requires i < j < |rs| && CallsAt(f, rs, i) && rs[i].answer == Refused(true)
    ensures var retry := StreamOf(Run(f, rs[..i + 1]), rs[i].which).schedule.next;
      && retry == rs[i].now + StreamOf(Run(f, rs[..i + 1]), rs[i].which).schedule.backoff
      && (CallsAt(f, rs, j) ==> rs[j].now >= retry)
  {
    assert rs[..i + 1][..i] == rs[..i];
    assert rs[..j] == rs[..i + 1] + rs[i + 1..j];
    RunSplit(f, rs[..i + 1], rs[i + 1..j]);
    PauseNeverShrinks(Run(f, rs[..i + 1]), rs[i + 1..j]);
  }

  // ---- The funding rate served --------------------------------------------------------------------

  datatype FundingRequest = FundingRequest(called: bool, now: Time, answer: Answer, fetched: FundingRate)

  function ServedAfter(rs: seq<FundingRequest>): FundingRate {
    if rs == [] then FundingRate(false, 0.0, 0)
    else
      var r := rs[|rs| - 1];
      ServedFunding(ServedAfter(rs[..|rs| - 1]), r.called, r.now, r.answer, r.fetched)
  }

  predicate Fetches(r: FundingRequest) {
    r.called && r.answer == Data
  }

  /**
   * What is served is the last rate fetched, whatever was refused since; before any, it is invalid and dated by the
   * first refusal.
   */
  lemma {:induction false} ServedIsLastFetched(rs: seq<FundingRequest>, k: nat)
    requires forall i :: 0 <= i < |rs| ==> rs[i].now != 0 && (Fetches(rs[i]) ==> rs[i].fetched.updatedAt != 0)
    requires k < |rs| && (Fetches(rs[k]) || (rs[k].called && forall i :: 0 <= i < |rs| ==> !Fetches(rs[i])))
    requires forall i :: 0 <= i < |rs| && Fetches(rs[i]) ==> i <= k
    requires !Fetches(rs[k]) ==> forall i :: 0 <= i < k ==> !rs[i].called
    ensures ServedAfter(rs) == if Fetches(rs[k]) then rs[k].fetched else FundingRate(false, 0.0, rs[k].now)
  {
    var front := rs[..|rs| - 1];
    if k < |front| {
      ServedIsLastFetched(front, k);
    } else if !Fetches(rs[k]) {
      NothingServed(front);
    }
  }

  lemma {:induction false} NothingServed(rs: seq<FundingRequest>)
    requires forall i :: 0 <= i < |rs| ==> !rs[i].called
    ensures ServedAfter(rs) == FundingRate(false, 0.0, 0)
  {
    if rs != [] {
      NothingServed(rs[..|rs| - 1]);
    }
  }
}
