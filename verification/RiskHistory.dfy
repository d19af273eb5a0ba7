/** The risk manager's state as a function of everything it has observed. */
module RiskHistory {
  import opened Numbers
  import opened Domain
  import opened RiskManager

  datatype Event = Equity(now: Time, equity: real) | TradeClosed(pnl: real)

  function Next(cfg: RiskConfig, s: State, e: Event): State {
    match e
    case Equity(now, equity) => Observed(cfg, s, now, equity)
    case TradeClosed(pnl) => Recorded(cfg, s, pnl)
  }

  function After(cfg: RiskConfig, es: seq<Event>): State {
    if es == [] then FRESH else Next(cfg, After(cfg, es[..|es| - 1]), es[|es| - 1])
  }

  // ---- The history specifications -----------------------------------------------------------------

  predicate Valid(e: Event) {
    e.Equity? && e.equity > 0.0
  }

  predicate Win(e: Event) {
    e.TradeClosed? && e.pnl > 0.0
  }

  predicate Loss(e: Event) {
    e.TradeClosed? && e.pnl < 0.0
  }

  /** The greatest valid equity seen, and nothing else. */
  ghost predicate IsHighWater(es: seq<Event>, h: real) {
    && (forall k :: 0 <= k < |es| && Valid(es[k]) ==> es[k].equity <= h)
    && (h == 0.0 || exists k :: 0 <= k < |es| && Valid(es[k]) && es[k].equity == h)
  }

  function CountLosses(es: seq<Event>): nat {
    if es == [] then 0 else CountLosses(es[..|es| - 1]) + if Loss(es[|es| - 1]) then 1 else 0
  }

  /** From k on nothing is a win, and k follows a win or starts the history. */
  predicate SinceLastWin(es: seq<Event>, k: nat) {
    k <= |es| && (k == 0 || Win(es[k - 1])) && forall m :: k <= m < |es| ==> !Win(es[m])
  }

  ghost predicate IsStreak(es: seq<Event>, n: int) {
    exists k: nat :: SinceLastWin(es, k) && n == CountLosses(es[k..])
  }

  /** Index k is the first valid observation of the current run of equal keys. */
  ghost predicate StartsRun(es: seq<Event>, key: Time -> int, k: nat) {
    && k < |es| && Valid(es[k])
    && (forall m :: k < m < |es| && Valid(es[m]) ==> key(es[m].now) == key(es[k].now))
    && (forall m :: 0 <= m < k && Valid(es[m]) && (forall j :: m < j < k ==> !Valid(es[j])) ==>
          key(es[m].now) != key(es[k].now))
  }

  /** start and current are the equity and key at the beginning of the current run; both unset if nothing was valid. */
  ghost predicate IsAnchor(es: seq<Event>, key: Time -> int, current: Option<int>, start: real) {
    if forall k :: 0 <= k < |es| ==> !Valid(es[k]) then current == None && start == 0.0
    else exists k: nat :: StartsRun(es, key, k) && start == es[k].equity && current == Some(key(es[k].now))
  }

  /** The event at k breaches a limit, given the history up to and including it. */
  predicate BreachAt(cfg: RiskConfig, es: seq<Event>, k: nat)
    requires k < |es|
  {
    var s := After(cfg, es[..k + 1]);
    var streak := cfg.maximumLosses > 0 && s.losses >= cfg.maximumLosses;
    if es[k].TradeClosed? then streak
    else
      && es[k].equity > 0.0
      && (streak || es[k].equity <= s.dayStart - cfg.dailyHardLoss || es[k].equity <= s.weekStart - cfg.weeklyHardLoss
          || es[k].equity <= s.highWater - cfg.maximumDrawdown)
  }

  ghost predicate IsHalted(cfg: RiskConfig, es: seq<Event>) {
    exists k: nat :: k < |es| && BreachAt(cfg, es, k)
  }

  /** An equity strictly inside every loss limit. */
  predicate Inside(cfg: RiskConfig, s: State, equity: real) {
    && s.dayStart - equity < cfg.dailyHardLoss
    && s.weekStart - equity < cfg.weeklyHardLoss
    && s.highWater - equity < cfg.maximumDrawdown
  }

  predicate LastValid(es: seq<Event>, k: nat) {
    k < |es| && Valid(es[k]) && forall m :: k < m < |es| ==> !Valid(es[m])
  }

  // ---- One event at a time --------------------------------------------------------------------------

  lemma HighWaterStep(es: seq<Event>, e: Event, h: real)
    requires IsHighWater(es, h)
    ensures IsHighWater(es + [e], if Valid(e) then Max(h, e.equity) else h)
  {
    var all := es + [e];
    assert all[|es|] == e;
    forall k | 0 <= k < |es| ensures all[k] == es[k] {}
    if h != 0.0 {
      var k :| 0 <= k < |es| && Valid(es[k]) && es[k].equity == h;
      assert Valid(all[k]) && all[k].equity == h;
    }
  }

  lemma StreakStep(es: seq<Event>, e: Event, n: int)
    requires IsStreak(es, n)
    ensures IsStreak(es + [e], if Win(e) then 0 else if Loss(e) then n + 1 else n)
  {
    var all := es + [e];
    if Win(e) {
      assert all[|all| - 1] == e && SinceLastWin(all, |all|);
      assert all[|all|..] == [];
    } else {
      var k: nat :| SinceLastWin(es, k) && n == CountLosses(es[k..]);
      StreakContinues(es, e, k);
    }
  }

  lemma StreakContinues(es: seq<Event>, e: Event, k: nat)
    requires SinceLastWin(es, k) && !Win(e)
    ensures SinceLastWin(es + [e], k)
    ensures CountLosses((es + [e])[k..]) == CountLosses(es[k..]) + if Loss(e) then 1 else 0
  {
    var tail := es[k..];
    assert (es + [e])[k..] == tail + [e];
    assert (tail + [e])[..|tail|] == tail;
  }

  lemma AnchorStays(es: seq<Event>, e: Event, key: Time -> int, current: Option<int>, start: real)
    requires IsAnchor(es, key, current, start)
    requires Valid(e) ==> current == Some(key(e.now))
    ensures IsAnchor(es + [e], key, current, start)
  {
    var all := es + [e];
    forall k | 0 <= k < |es| ensures all[k] == es[k] {}
    if forall k :: 0 <= k < |es| ==> !Valid(es[k]) {
      assert forall k :: 0 <= k < |all| ==> !Valid(all[k]);
    } else {
      var k: nat :| StartsRun(es, key, k) && start == es[k].equity && current == Some(key(es[k].now));
      RunContinues(es, e, key, k);
      assert Valid(all[k]);
    }
  }

  lemma RunContinues(es: seq<Event>, e: Event, key: Time -> int, k: nat)
    requires StartsRun(es, key, k) && (Valid(e) ==> key(e.now) == key(es[k].now))
    ensures StartsRun(es + [e], key, k) && (es + [e])[k] == es[k]
  {
    var all := es + [e];
    forall m | 0 <= m < k && Valid(all[m]) && (forall j :: m < j < k ==> !Valid(all[j]))
      ensures key(all[m].now) != key(all[k].now)
    {
      forall j | m < j < k ensures !Valid(es[j]) {
        assert all[j] == es[j];
      }
    }
  }

  lemma AnchorMoves(es: seq<Event>, e: Event, key: Time -> int, current: Option<int>, start: real)
    requires IsAnchor(es, key, current, start) && Valid(e) && current != Some(key(e.now))
    ensures IsAnchor(es + [e], key, Some(key(e.now)), e.equity)
  {
    var all, n := es + [e], |es|;
    assert all[n] == e;
    forall m | 0 <= m < n && Valid(all[m]) && (forall j :: m < j < n ==> !Valid(all[j]))
      ensures key(all[m].now) != key(all[n].now)
    {
      assert all[m] == es[m];
      assert forall j :: m < j < n ==> all[j] == es[j];
      LastValidIsInTheRun(es, key, current, start, m);
    }
    assert StartsRun(all, key, n);
  }

  lemma LastValidIsInTheRun(es: seq<Event>, key: Time -> int, current: Option<int>, start: real, m: nat)
    requires IsAnchor(es, key, current, start) && m < |es| && Valid(es[m])
    requires forall j :: m < j < |es| ==> !Valid(es[j])
    ensures current == Some(key(es[m].now))
  {
    var k: nat :| StartsRun(es, key, k) && start == es[k].equity && current == Some(key(es[k].now));
    assert k <= m;
  }

  lemma AnchorIsPositive(es: seq<Event>, key: Time -> int, current: Option<int>, start: real)
    requires IsAnchor(es, key, current, start)
    ensures current.Some? <==> start > 0.0
  {
  }

  lemma AnchorStep(es: seq<Event>, e: Event, key: Time -> int, current: Option<int>, start: real)
    requires IsAnchor(es, key, current, start)
    ensures if !Valid(e) then IsAnchor(es + [e], key, current, start)
            else var moved := current != Some(key(e.now)) || start <= 0.0;
              IsAnchor(es + [e], key, Some(key(e.now)), if moved then e.equity else start)
  {
    AnchorIsPositive(es, key, current, start);
    if Valid(e) && current != Some(key(e.now)) {
      AnchorMoves(es, e, key, current, start);
    } else {
      AnchorStays(es, e, key, current, start);
    }
  }

  /**
   * The persistent state refines the history: the high-water mark is the greatest valid equity, the anchors are the
   * first valid equity of the current UTC day and ISO week, and the streak counts the losses since the last win.
   */
  lemma StateIsHistory(cfg: RiskConfig, es: seq<Event>)
    ensures var s := After(cfg, es);
      && IsHighWater(es, s.highWater) && IsStreak(es, s.losses)
      && IsAnchor(es, UtcDay, s.dayKey, s.dayStart) && IsAnchor(es, IsoWeek, s.weekKey, s.weekStart)
  {
    StateFollows(cfg, es);
    var s := After(cfg, es);
    SameKeys(es, DayOf, UtcDay, s.dayKey, s.dayStart);
    SameKeys(es, WeekOf, IsoWeek, s.weekKey, s.weekStart);
  }

  /** Whole UTC days, and whole weeks of seven of them, since the zero time; a Monday began both. */
  function UtcDay(t: Time): int {
    t / 86_400_000_000_000
  }

  function IsoWeek(t: Time): int {
    t / 604_800_000_000_000
  }

  lemma SameKeys(es: seq<Event>, key: Time -> int, other: Time -> int, current: Option<int>, start: real)
    requires (forall t :: key(t) == other(t)) && IsAnchor(es, key, current, start)
    ensures IsAnchor(es, other, current, start)
  {
    if k: nat :| StartsRun(es, key, k) && start == es[k].equity && current == Some(key(es[k].now)) {
      assert StartsRun(es, other, k);
    }
  }

  lemma {:induction false} StateFollows(cfg: RiskConfig, es: seq<Event>)
    ensures var s := After(cfg, es);
      && IsHighWater(es, s.highWater) && IsStreak(es, s.losses)
      && IsAnchor(es, DayOf, s.dayKey, s.dayStart) && IsAnchor(es, WeekOf, s.weekKey, s.weekStart)
  {
    hide IsHighWater, IsStreak, IsAnchor, DayOf, WeekOf;
    if es == [] {
      EmptyHistory();
    } else {
      var front, e := es[..|es| - 1], es[|es| - 1];
      StateFollows(cfg, front);
      var s := After(cfg, front);
      assert es == front + [e];
      HighWaterStep(front, e, s.highWater);
      StreakStep(front, e, s.losses);
      AnchorStep(front, e, DayOf, s.dayKey, s.dayStart);
      AnchorStep(front, e, WeekOf, s.weekKey, s.weekStart);
    }
  }

  lemma EmptyHistory()
    ensures IsHighWater([], 0.0) && IsStreak([], 0)
    ensures IsAnchor([], DayOf, None, 0.0) && IsAnchor([], WeekOf, None, 0.0)
  {
    var none: seq<Event> := [];
    assert SinceLastWin(none, 0) && none[0..] == [];
  }

  /** The latch is exactly the disjunction of every breach so far; in particular it never clears. */
  lemma {:induction false} HaltedIffBreached(cfg: RiskConfig, es: seq<Event>)
    ensures After(cfg, es).halted <==> IsHalted(cfg, es)
  {
    hide Anchored;
    if es != [] {
      var front, n := es[..|es| - 1], |es| - 1;
      HaltedIffBreached(cfg, front);
      assert es[..n + 1] == es;
      forall k: nat | k < n ensures BreachAt(cfg, front, k) == BreachAt(cfg, es, k) {
        assert front[..k + 1] == es[..k + 1];
      }
      assert After(cfg, es).halted <==> After(cfg, front).halted || BreachAt(cfg, es, n);
    }
  }

  lemma {:induction false} HaltNeverClears(cfg: RiskConfig, es: seq<Event>, more: seq<Event>)
    requires After(cfg, es).halted
    ensures After(cfg, es + more).halted
  {
    if more == [] {
      assert es + more == es;
    } else {
      assert (es + more)[..|es + more| - 1] == es + more[..|more| - 1];
      HaltNeverClears(cfg, es, more[..|more| - 1]);
    }
  }

  /** While the latch is open, the last valid equity lies strictly inside every limit and the streak below its own. */
  lemma {:induction false} UnhaltedIsInside(cfg: RiskConfig, es: seq<Event>, k: nat)
    requires !After(cfg, es).halted
    ensures !StreakBreached(cfg, After(cfg, es).losses)
    ensures LastValid(es, k) ==> Inside(cfg, After(cfg, es), es[k].equity)
  {
    if es != [] {
      var front := es[..|es| - 1];
      UnhaltedIsInside(cfg, front, k);
      if LastValid(es, k) && k < |front| {
        assert LastValid(front, k);
      }
    }
  }
}
