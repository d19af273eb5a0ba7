/** The rolling basis window: one sample a minute, kept in a ring and two slices that stay aligned. */
module Basis {
  import opened Sequences
  import opened Domain
  import opened Series

  datatype Source = Unset | LiveBook | RestCandle

  datatype Sample = Sample(time: Time, value: real, source: Source)

  function MinuteOf(t: Time): Time {
    t - t % MINUTE
  }

  // ---- What the window holds ----------------------------------------------------------------------

  predicate Proper(x: Sample) {
    x.time != 0 && MinuteOf(x.time) == x.time && x.source != Unset
  }

  ghost predicate Increasing(s: seq<Sample>) {
    forall i, j :: 0 <= i < j < |s| ==> s[i].time < s[j].time
  }

  /** Minute-aligned, strictly increasing, and of known source. */
  ghost predicate WellFormed(s: seq<Sample>) {
    (forall x :: x in s ==> Proper(x)) && Increasing(s)
  }

  function LatestTime(s: seq<Sample>): Time {
    if s == [] then 0 else s[|s| - 1].time
  }

  /** A live observation adds a sample only when its minute is new. */
  function Observed(s: seq<Sample>, window: nat, now: Time, value: real): seq<Sample> {
    if s == [] || MinuteOf(now) > LatestTime(s) then LastN(s + [Sample(MinuteOf(now), value, LiveBook)], window) else s
  }

  // ---- Seeding ------------------------------------------------------------------------------------

  predicate InWindow(t: Time, window: nat, now: Time) {
    t != 0 && MinuteOf(now) - window * MINUTE <= t <= MinuteOf(now)
  }

  function Cleaned(x: Sample): Sample {
    Sample(MinuteOf(x.time), x.value, if x.source == Unset then LiveBook else x.source)
  }

  /** The last supplied sample of each minute inside the window. */
  function ByMinute(samples: seq<Sample>, window: nat, now: Time): map<Time, Sample> {
    if samples == [] then map[]
    else
      var m, x := ByMinute(samples[..|samples| - 1], window, now), samples[|samples| - 1];
      if InWindow(MinuteOf(x.time), window, now) then m[MinuteOf(x.time) := Cleaned(x)] else m
  }

  function Lookup(m: map<Time, Sample>, keys: seq<Time>): (r: seq<Sample>)
    requires forall i :: 0 <= i < |keys| ==> keys[i] in m
    ensures |r| == |keys| && forall i :: 0 <= i < |r| ==> keys[i] in m && r[i] == m[keys[i]]
  {
    if keys == [] then []
    else
      Lookup(m, keys[..|keys| - 1]) + [m[keys[|keys| - 1]]]
  }

  /** s lists exactly the entries of m in time order. */
  ghost predicate Lists(s: seq<Sample>, m: map<Time, Sample>) {
    && (forall k :: 0 <= k < |s| ==> s[k].time in m && m[s[k].time] == s[k])
    && (forall t :: t in m ==> exists k :: 0 <= k < |s| && s[k].time == t)
    && (forall i, j :: 0 <= i < j < |s| ==> s[i].time < s[j].time)
  }

  /** The window after seeding from the samples. */
  ghost predicate Seeded(s: seq<Sample>, samples: seq<Sample>, window: nat, now: Time) {
    exists all :: Lists(all, ByMinute(samples, window, now)) && s == LastN(all, window)
  }

  function Times(s: seq<Sample>): (r: seq<Time>)
    ensures |r| == |s|
  {
    seq(|s|, i requires 0 <= i < |s| => s[i].time)
  }

  function Sources(s: seq<Sample>): (r: seq<Source>)
    ensures |r| == |s|
  {
    seq(|s|, i requires 0 <= i < |s| => s[i].source)
  }

  function Values(s: seq<Sample>): (r: seq<real>)
    ensures |r| == |s|
  {
    seq(|s|, i requires 0 <= i < |s| => s[i].value)
  }

  function AppendCapped<T>(s: seq<T>, v: T, capacity: nat): seq<T> {
    LastN(s + [v], capacity)
  }

  lemma ProjectionsAppend(s: seq<Sample>, x: Sample)
    ensures Times(s + [x]) == Times(s) + [x.time]
    ensures Sources(s + [x]) == Sources(s) + [x.source]
    ensures Values(s + [x]) == Values(s) + [x.value]
  {
  }

  lemma ProjectionsOfLast(s: seq<Sample>, n: nat)
    ensures Times(LastN(s, n)) == LastN(Times(s), n)
    ensures Sources(LastN(s, n)) == LastN(Sources(s), n)
    ensures Values(LastN(s, n)) == LastN(Values(s), n)
  {
  }

  lemma ByMinuteEntries(samples: seq<Sample>, window: nat, now: Time)
    ensures forall t :: t in ByMinute(samples, window, now) ==>
      var x := ByMinute(samples, window, now)[t];
      x.time == t && MinuteOf(t) == t && InWindow(t, window, now) && x.source != Unset
  {
  }

  class Engine {
    const window: nat
    var basis: Window
    var basisTimes: seq<Time>
    var basisSource: seq<Source>
    var basisBucket: Time

    /** The samples in the window, put together from the ring and the two slices. */
    ghost var samples: seq<Sample>

    ghost predicate Valid()
      reads this, basis, basis.values
    {
      && window >= 2 && basis.Valid() && basis.capacity == window
      && WellFormed(samples) && |samples| <= window
      && basis.Contents() == Values(samples) && basisTimes == Times(samples) && basisSource == Sources(samples)
      && basisBucket == LatestTime(samples)
    }

    constructor (window: nat)
      requires window >= 2
      ensures Valid() && fresh(basis) && fresh(basis.values) && this.window == window && samples == []
    {
      this.window := window;
      basis := new Window(window);
      basisTimes, basisSource, basisBucket, samples := [], [], 0, [];
    }

    /** The basis sampling of one tick with a usable book and fair value. */
    method Update(now: Time, value: real)
      requires Valid() && now >= MINUTE
      modifies this, basis, basis.values
      ensures Valid() && basis == old(basis)
      ensures samples == Observed(old(samples), window, now, value)
    {
      hide Times, Sources, Values, LastN, Window.Contents;
      var minute := MinuteOf(now);
      if basisBucket == 0 || minute > basisBucket {
        ghost var x := Sample(minute, value, LiveBook);
        ProjectionsAppend(samples, x);
        ProjectionsOfLast(samples + [x], window);
        AppendKeepsForm(samples, x, window);
        basis.Add(value);
        basisTimes := AppendCapped(basisTimes, minute, window);
        basisSource := AppendCapped(basisSource, LiveBook, window);
        basisBucket := minute;
        samples := LastN(samples + [x], window);
      }
    }

    method BasisSamples() returns (out: seq<Sample>)
      requires Valid()
      ensures out == samples
    {
      var values := basis.Values();
      var n := values.Length;
      if |basisTimes| < n {
        n := |basisTimes|;
      }
      out := [];
      for i := 0 to n
        invariant n == |samples|
        invariant out == samples[..i]
      {
        var source := LiveBook;
        if i < |basisSource| && basisSource[i] != Unset {
          source := basisSource[i];
        }
        assert samples[i] in samples && Proper(samples[i]);
        assert values[..][i] == samples[i].value;
        out := out + [Sample(basisTimes[i], values[i], source)];
      }
    }

    method SeedBasis(supplied: seq<Sample>, now: Time) returns (n: nat)
      requires Valid() && now >= MINUTE
      modifies this
      ensures Valid() && fresh(basis) && fresh(basis.values)
      ensures Seeded(samples, supplied, window, now) && n == |samples|
    {
      hide WellFormed, Lists, ByMinute, LastN, Window.Contents;
      var byMinute := Bucketed(supplied, now);
      ByMinuteEntries(supplied, window, now);
      var all := SortedEntries(byMinute);
      ListsAreWellFormed(all, supplied, window, now);
      var clean := LastN(all, window);
      Refill(clean);
      assert Lists(all, ByMinute(supplied, window, now)) && samples == LastN(all, window);
      n := basis.Len();
    }

    method Bucketed(supplied: seq<Sample>, now: Time) returns (byMinute: map<Time, Sample>)
      ensures byMinute == ByMinute(supplied, window, now)
    {
      byMinute := map[];
      for i := 0 to |supplied|
        invariant byMinute == ByMinute(supplied[..i], window, now)
      {
        var x := supplied[i];
        var at := MinuteOf(x.time);
        assert supplied[..i + 1][..i] == supplied[..i];
        if at == 0 || at < MinuteOf(now) - window * MINUTE || at > MinuteOf(now) {
          continue;
        }
        byMinute := byMinute[at := Sample(at, x.value, if x.source == Unset then LiveBook else x.source)];
      }
      assert supplied[..|supplied|] == supplied;
    }

    /** Replaces the window's contents. */
    method Refill(clean: seq<Sample>)
      requires window >= 2 && WellFormed(clean) && |clean| <= window
      modifies this
      ensures Valid() && fresh(basis) && fresh(basis.values) && samples == clean
    {
      hide Times, Sources, Values, Window.Contents, WellFormed;
      basis := new Window(window);
      basisTimes, basisSource, basisBucket := [], [], 0;
      NothingProjected();
      for i := 0 to |clean|
        invariant fresh(basis) && fresh(basis.values) && basis.Valid() && basis.capacity == window
        invariant basis.Contents() == Values(clean[..i])
        invariant basisTimes == Times(clean[..i]) && basisSource == Sources(clean[..i])
        invariant basisBucket == LatestTime(clean[..i])
      {
        var x := clean[i];
        assert clean[..i + 1] == clean[..i] + [x];
        ProjectionsAppend(clean[..i], x);
        basis.Add(x.value);
        basisTimes := basisTimes + [x.time];
        basisSource := basisSource + [x.source];
        basisBucket := x.time;
      }
      assert clean[..|clean|] == clean;
      samples := clean;
    }

    method SortedKeys(s: set<Time>) returns (keys: seq<Time>)
      ensures forall i, j :: 0 <= i < j < |keys| ==> keys[i] < keys[j]
      ensures forall i :: 0 <= i < |keys| ==> keys[i] in s
      ensures forall t :: t in s ==> exists i :: 0 <= i < |keys| && keys[i] == t
    {
      var listed := Elements(s);
      keys := Sorted(listed);
      StrictlyIncreasing(s, keys);
      forall t ensures t in keys <==> t in s {
        assert t in multiset(keys) <==> t in multiset(s);
      }
      assert forall i :: 0 <= i < |keys| ==> keys[i] in keys;
    }

    method SortedEntries(m: map<Time, Sample>) returns (all: seq<Sample>)
      requires forall t :: t in m ==> m[t].time == t
      ensures Lists(all, m)
    {
      var keys := SortedKeys(m.Keys);
      all := Lookup(m, keys);
    }
  }

  lemma NothingProjected()
    ensures Times([]) == [] && Sources([]) == [] && Values([]) == []
  {
  }

  lemma AppendKeepsForm(s: seq<Sample>, x: Sample, window: nat)
    requires WellFormed(s) && window >= 1 && Proper(x)
    requires s == [] || x.time > LatestTime(s)
    ensures WellFormed(LastN(s + [x], window)) && LatestTime(LastN(s + [x], window)) == x.time
    ensures |LastN(s + [x], window)| <= window
  {
    hide Proper;
    var all := s + [x];
    assert Increasing(all) by {
      forall i, j | 0 <= i < j < |all| ensures all[i].time < all[j].time {
        if j == |s| && i < |s| - 1 {
          assert s[i].time < s[|s| - 1].time;
        }
      }
    }
    SuffixKeepsForm(all, window);
  }

  lemma SuffixKeepsForm(s: seq<Sample>, n: nat)
    requires WellFormed(s)
    ensures WellFormed(LastN(s, n))
  {
    hide Proper;
    var r := LastN(s, n);
    var cut := |s| - |r|;
    assert r == s[cut..];
    forall x | x in r ensures Proper(x) {
      assert x in s;
    }
    forall i, j | 0 <= i < j < |r| ensures r[i].time < r[j].time {
      assert r[i] == s[cut + i] && r[j] == s[cut + j];
    }
  }

  lemma ListsAreWellFormed(all: seq<Sample>, supplied: seq<Sample>, window: nat, now: Time)
    requires Lists(all, ByMinute(supplied, window, now)) && now >= 0
    ensures WellFormed(LastN(all, window))
  {
    ByMinuteEntries(supplied, window, now);
  }

  // ---- Round trip ---------------------------------------------------------------------------------

  lemma {:induction false} IncreasingByMinute(s: seq<Sample>, window: nat, now: Time)
    requires WellFormed(s) && forall k :: 0 <= k < |s| ==> InWindow(s[k].time, window, now)
    ensures Lists(s, ByMinute(s, window, now))
  {
    hide Lists, MinuteOf;
    if s == [] {
      NothingListed();
    } else {
      var front, x := s[..|s| - 1], s[|s| - 1];
      IncreasingByMinute(front, window, now);
      assert x in s && Proper(x);
      assert Cleaned(x) == x && s == front + [x];
      forall k | 0 <= k < |front| ensures front[k].time < x.time {
        assert front[k] == s[k];
        assert s[k].time < s[|s| - 1].time;
      }
      ListsOneMore(front, x, ByMinute(front, window, now));
    }
  }

  lemma NothingListed()
    ensures Lists([], map[])
  {
  }

  lemma ListsOneMore(front: seq<Sample>, x: Sample, m: map<Time, Sample>)
    requires Lists(front, m) && forall k :: 0 <= k < |front| ==> front[k].time < x.time
    ensures Lists(front + [x], m[x.time := x])
  {
    var s := front + [x];
    var more := m[x.time := x];
    forall t | t in more ensures exists k :: 0 <= k < |s| && s[k].time == t {
      if t == x.time {
        assert s[|front|].time == t;
      } else {
        var k :| 0 <= k < |front| && front[k].time == t;
        assert s[k].time == t;
      }
    }
  }

  /** Two time-ordered listings of one map are equal. */
  lemma {:induction false} ListingIsUnique(a: seq<Sample>, b: seq<Sample>, m: map<Time, Sample>)
    requires Lists(a, m) && Lists(b, m)
    ensures a == b
  {
    hide Lists;
    EmptyTogether(a, b, m);
    EmptyTogether(b, a, m);
    if a != [] {
      var x, y := a[|a| - 1], b[|b| - 1];
      LatestAgree(a, b, m);
      var rest := m - {x.time};
      DropLatest(a, m);
      DropLatest(b, m);
      ListingIsUnique(a[..|a| - 1], b[..|b| - 1], rest);
      assert a == a[..|a| - 1] + [x] && b == b[..|b| - 1] + [y];
    }
  }

  lemma EmptyTogether(a: seq<Sample>, b: seq<Sample>, m: map<Time, Sample>)
    requires Lists(a, m) && Lists(b, m)
    ensures b != [] ==> a != []
  {
    if b != [] {
      assert b[0].time in m;
    }
  }

  /** The last of a listing is the latest entry. */
  lemma LatestIsLast(s: seq<Sample>, m: map<Time, Sample>)
    requires Lists(s, m) && s != []
    ensures var x := s[|s| - 1];
      x.time in m && m[x.time] == x && forall t :: t in m ==> t <= x.time
  {
    var x := s[|s| - 1];
    forall t | t in m ensures t <= x.time {
      var k :| 0 <= k < |s| && s[k].time == t;
      assert k == |s| - 1 || s[k].time < x.time;
    }
  }

  lemma LatestAgree(a: seq<Sample>, b: seq<Sample>, m: map<Time, Sample>)
    requires Lists(a, m) && Lists(b, m) && a != [] && b != []
    ensures a[|a| - 1] == b[|b| - 1]
  {
    hide Lists;
    LatestIsLast(a, m);
    LatestIsLast(b, m);
    assert a[|a| - 1].time <= b[|b| - 1].time <= a[|a| - 1].time;
  }

  lemma DropLatest(a: seq<Sample>, m: map<Time, Sample>)
    requires Lists(a, m) && a != []
    ensures Lists(a[..|a| - 1], m - {a[|a| - 1].time})
  {
    var front, x := a[..|a| - 1], a[|a| - 1];
    forall t | t in m - {x.time} ensures exists k :: 0 <= k < |front| && front[k].time == t {
      var k :| 0 <= k < |a| && a[k].time == t;
      assert front[k].time == t;
    }
  }

  /** Round trip: seeding a window from its own samples, all still inside it, changes nothing. */
  lemma SeedingOwnSamplesIsIdentity(s: seq<Sample>, seeded: seq<Sample>, window: nat, now: Time)
    requires WellFormed(s) && |s| <= window && forall k :: 0 <= k < |s| ==> InWindow(s[k].time, window, now)
    requires Seeded(seeded, s, window, now)
    ensures seeded == s
  {
    var all :| Lists(all, ByMinute(s, window, now)) && seeded == LastN(all, window);
    IncreasingByMinute(s, window, now);
    ListingIsUnique(all, s, ByMinute(s, window, now));
  }

  // ---- Which samples are kept ---------------------------------------------------------------------

  /** The minute lies in the window that ends now: not the zero time, not later, at most so many minutes back. */
  predicate Kept(minute: Time, window: nat, now: Time) {
    minute != 0 && minute <= now && (now - now % MINUTE - minute) / MINUTE <= window
  }

  /** The last supplied sample of its minute. */
  ghost predicate LastOfMinute(samples: seq<Sample>, k: nat) {
    k < |samples| && forall i :: k < i < |samples| ==> samples[i].time / MINUTE != samples[k].time / MINUTE
  }

  /** What becomes of a supplied sample: its time is cut to the minute, and a missing source is taken as live. */
  predicate Becomes(x: Sample, y: Sample) {
    && y.time == x.time / MINUTE * MINUTE && y.value == x.value
    && (if x.source == Unset then y.source == LiveBook else y.source == x.source)
  }

  /** It is what becomes of the last supplied sample of a minute in the window. */
  ghost predicate Retained(samples: seq<Sample>, y: Sample, window: nat, now: Time) {
    exists k: nat :: LastOfMinute(samples, k) && Becomes(samples[k], y) && Kept(y.time, window, now)
  }

  lemma SameMinute(s: Time, t: Time)
    ensures MinuteOf(s) == MinuteOf(t) <==> s / MINUTE == t / MINUTE
    ensures MinuteOf(s) == s / MINUTE * MINUTE
  {
  }

  lemma KeptIsInWindow(minute: Time, window: nat, now: Time)
    requires minute % MINUTE == 0
    ensures Kept(minute, window, now) <==> InWindow(minute, window, now)
  {
    var m, n := minute / MINUTE, now / MINUTE;
    assert minute == m * MINUTE && now - now % MINUTE == n * MINUTE;
    assert (n * MINUTE - m * MINUTE) / MINUTE == n - m;
  }

  /** Of every minute in the window the last supplied sample is kept, and nothing else. */
  lemma {:induction false} ByMinuteKeepsTheLast(samples: seq<Sample>, window: nat, now: Time, y: Sample)
    ensures (y.time in ByMinute(samples, window, now) && ByMinute(samples, window, now)[y.time] == y)
       <==> Retained(samples, y, window, now)
  {
    hide MinuteOf, Kept, InWindow, Becomes;
    if samples != [] {
      var front, x := samples[..|samples| - 1], samples[|samples| - 1];
      ByMinuteKeepsTheLast(front, window, now, y);
      SameMinute(x.time, y.time);
      assert MinuteOf(x.time) % MINUTE == 0;
      KeptIsInWindow(MinuteOf(x.time), window, now);
      LastOneMore(front, x, y, window, now);
      CleanedBecomes(x, y);
      assert samples == front + [x];
    } else {
      NothingRetained(y, window, now);
    }
  }

  lemma CleanedBecomes(x: Sample, y: Sample)
    ensures Cleaned(x) == y <==> Becomes(x, y)
    ensures Becomes(x, y) ==> MinuteOf(x.time) == y.time
  {
    SameMinute(x.time, x.time);
    hide MinuteOf;
  }

  lemma NothingRetained(y: Sample, window: nat, now: Time)
    ensures !Retained([], y, window, now)
  {
  }

  /** A seeded window holds retained samples only, and leaves out only older ones, and those only once it is full. */
  lemma SeededKeepsTheNewest(s: seq<Sample>, samples: seq<Sample>, window: nat, now: Time, y: Sample)
    requires Seeded(s, samples, window, now)
    ensures y in s ==> Retained(samples, y, window, now)
    ensures Retained(samples, y, window, now) && y !in s ==> |s| == window && forall x :: x in s ==> y.time < x.time
  {
    hide Retained, ByMinute, Lists;
    var m := ByMinute(samples, window, now);
    var all: seq<Sample> :| Lists(all, m) && s == LastN(all, window);
    ByMinuteKeepsTheLast(samples, window, now, y);
    ListedIff(all, m, y);
    NewestOf(all, m, window, y);
  }

  lemma ListedIff(all: seq<Sample>, m: map<Time, Sample>, y: Sample)
    requires Lists(all, m)
    ensures y in all <==> y.time in m && m[y.time] == y
  {
    if y.time in m && m[y.time] == y {
      var k :| 0 <= k < |all| && all[k].time == y.time;
      assert all[k] == y;
    }
  }

  lemma NewestOf(all: seq<Sample>, m: map<Time, Sample>, window: nat, y: Sample)
    requires Lists(all, m)
    ensures var s := LastN(all, window);
      && (y in s ==> y in all)
      && (y in all && y !in s ==> |s| == window && forall x :: x in s ==> y.time < x.time)
  {
    hide Lists;
    var cut := |all| - |LastN(all, window)|;
    assert LastN(all, window) == all[cut..];
    forall k | cut <= k < |all| ensures all[k] in all[cut..] {
      InSuffix(all, cut, k);
    }
    if y in all && y !in all[cut..] {
      var k :| 0 <= k < |all| && all[k] == y;
      forall x | x in all[cut..] ensures y.time < x.time {
        var i :| 0 <= i < |all[cut..]| && all[cut..][i] == x;
        ListedInOrder(all, m, k, cut + i);
      }
    }
  }

  lemma InSuffix(all: seq<Sample>, cut: nat, k: nat)
    requires cut <= k < |all|
    ensures all[k] in all[cut..]
  {
    assert all[cut..][k - cut] == all[k];
  }

  lemma ListedInOrder(all: seq<Sample>, m: map<Time, Sample>, i: nat, j: nat)
    requires Lists(all, m) && i < j < |all|
    ensures all[i].time < all[j].time
  {
  }
  lemma LastOneMore(front: seq<Sample>, x: Sample, y: Sample, window: nat, now: Time)
    ensures Retained(front + [x], y, window, now) <==>
      if x.time / MINUTE * MINUTE == y.time then Becomes(x, y) && Kept(y.time, window, now)
      else Retained(front, y, window, now)
  {
    hide Kept;
    var all := front + [x];
    if k: nat :| LastOfMinute(all, k) && Becomes(all[k], y) && Kept(y.time, window, now) {
      if k < |front| {
        assert all[|front|] == x && all[k] == front[k];
        forall i | k < i < |front| ensures front[i].time / MINUTE != front[k].time / MINUTE {
          assert all[i] == front[i];
        }
      }
    }
    if Becomes(x, y) && Kept(y.time, window, now) {
      assert LastOfMinute(all, |front|) && all[|front|] == x;
    }
    if x.time / MINUTE * MINUTE != y.time && Retained(front, y, window, now) {
      var k: nat :| LastOfMinute(front, k) && Becomes(front[k], y) && Kept(y.time, window, now);
      forall i | k < i < |all| ensures all[i].time / MINUTE != all[k].time / MINUTE {
        if i < |front| {
          assert all[i] == front[i];
        } else {
          assert all[i] == x;
        }
      }
      assert LastOfMinute(all, k) && all[k] == front[k];
    }
  }

  // ---- Merging ------------------------------------------------------------------------------------

  function MergedOne(m: map<Time, Sample>, x: Sample): map<Time, Sample> {
    var at := MinuteOf(x.time);
    if at == 0 then m
    else if at !in m || x.source == LiveBook || m[at].source != LiveBook then m[at := x.(time := at)]
    else m
  }

  function Merged(m: map<Time, Sample>, samples: seq<Sample>): map<Time, Sample> {
    if samples == [] then m else MergedOne(Merged(m, samples[..|samples| - 1]), samples[|samples| - 1])
  }

  method MergeBasisSamples(dst: map<Time, Sample>, samples: seq<Sample>) returns (r: map<Time, Sample>)
    ensures r == Merged(dst, samples)
  {
    r := dst;
    for i := 0 to |samples|
      invariant r == Merged(dst, samples[..i])
    {
      assert samples[..i + 1][..i] == samples[..i];
      var at := MinuteOf(samples[i].time);
      if at == 0 {
        continue;
      }
      var x := samples[i].(time := at);
      if at !in r || x.source == LiveBook || r[at].source != LiveBook {
        r := r[at := x];
      }
    }
    assert samples[..|samples|] == samples;
  }

  predicate LiveAt(m: map<Time, Sample>, t: Time) {
    t in m && m[t].source == LiveBook
  }

  ghost predicate SuppliesLive(samples: seq<Sample>, t: Time) {
    exists k :: 0 <= k < |samples| && MinuteOf(samples[k].time) == t && samples[k].source == LiveBook
  }

  ghost predicate Supplies(samples: seq<Sample>, t: Time) {
    exists k :: 0 <= k < |samples| && MinuteOf(samples[k].time) == t
  }

  /** After merging, a minute is live if and only if it was live before or some supplied sample of it is live. */
  lemma {:induction false} MergeKeepsLive(m: map<Time, Sample>, samples: seq<Sample>, t: Time)
    requires t != 0
    ensures LiveAt(Merged(m, samples), t) <==> LiveAt(m, t) || SuppliesLive(samples, t)
    ensures t in Merged(m, samples) <==> t in m || Supplies(samples, t)
  {
    if samples != [] {
      var front, x := samples[..|samples| - 1], samples[|samples| - 1];
      MergeKeepsLive(m, front, t);
      assert SuppliesLive(samples, t) <==>
               SuppliesLive(front, t) || (MinuteOf(x.time) == t && x.source == LiveBook) by {
        OneMore(front, x, t);
        assert samples == front + [x];
      }
      assert Supplies(samples, t) <==> Supplies(front, t) || MinuteOf(x.time) == t by {
        OneMore(front, x, t);
        assert samples == front + [x];
      }
    }
  }

  /** The last supplied sample of a minute among those that count. */
  ghost predicate LastSupplied(samples: seq<Sample>, live: bool, t: Time, k: nat) {
    && k < |samples| && MinuteOf(samples[k].time) == t && (live ==> samples[k].source == LiveBook)
    && forall i :: k < i < |samples| && MinuteOf(samples[i].time) == t ==> live && samples[i].source != LiveBook
  }

  /**
   * After merging, a minute holds the last live sample supplied for it; without one, a live sample from before; without
   * that, the last sample supplied, or what was there. The zero minute is left alone.
   */
  lemma MergeKeepsTheLast(m: map<Time, Sample>, samples: seq<Sample>, t: Time, k: nat)
    requires t != 0 && k < |samples|
    ensures LastSupplied(samples, true, t, k) ==>
      t in Merged(m, samples) && Merged(m, samples)[t] == samples[k].(time := t)
    ensures !SuppliesLive(samples, t) && LiveAt(m, t) ==> t in Merged(m, samples) && Merged(m, samples)[t] == m[t]
    ensures !SuppliesLive(samples, t) && !LiveAt(m, t) && LastSupplied(samples, false, t, k) ==>
      t in Merged(m, samples) && Merged(m, samples)[t] == samples[k].(time := t)
    ensures (0 in Merged(m, samples) <==> 0 in m) && (0 in m ==> Merged(m, samples)[0] == m[0])
  {
    hide MinuteOf, LastSupplied;
    if LastSupplied(samples, true, t, k) {
      LastLiveWins(m, samples, t, k);
    }
    if !SuppliesLive(samples, t) && LiveAt(m, t) {
      LiveStays(m, samples, t);
    }
    if !SuppliesLive(samples, t) && !LiveAt(m, t) && LastSupplied(samples, false, t, k) {
      LastWins(m, samples, t, k);
    }
    ZeroMinuteStays(m, samples);
  }

  lemma {:induction false} ZeroMinuteStays(m: map<Time, Sample>, samples: seq<Sample>)
    ensures (0 in Merged(m, samples) <==> 0 in m) && (0 in m ==> Merged(m, samples)[0] == m[0])
  {
    hide MinuteOf;
    if samples != [] {
      ZeroMinuteStays(m, samples[..|samples| - 1]);
    }
  }

  lemma {:induction false} LiveStays(m: map<Time, Sample>, samples: seq<Sample>, t: Time)
    requires t != 0 && LiveAt(m, t) && !SuppliesLive(samples, t)
    ensures t in Merged(m, samples) && Merged(m, samples)[t] == m[t]
  {
    hide MinuteOf;
    if samples != [] {
      var front, x := samples[..|samples| - 1], samples[|samples| - 1];
      assert samples == front + [x];
      OneMore(front, x, t);
      LiveStays(m, front, t);
    }
  }

  lemma LastSuppliedBefore(front: seq<Sample>, x: Sample, live: bool, t: Time, k: nat)
    requires LastSupplied(front + [x], live, t, k)
    ensures if k < |front|
            then LastSupplied(front, live, t, k) && (MinuteOf(x.time) != t || (live && x.source != LiveBook))
            else (front + [x])[k] == x
  {
    hide MinuteOf;
    var all := front + [x];
    assert all[|front|] == x;
    if k < |front| {
      assert all[k] == front[k];
      forall i | k < i < |front| ensures front[i] == all[i] {}
    }
  }

  lemma {:induction false} LastLiveWins(m: map<Time, Sample>, samples: seq<Sample>, t: Time, k: nat)
    requires t != 0 && LastSupplied(samples, true, t, k)
    ensures t in Merged(m, samples) && Merged(m, samples)[t] == samples[k].(time := t)
  {
    hide MinuteOf;
    var front, x := samples[..|samples| - 1], samples[|samples| - 1];
    assert samples == front + [x];
    LastSuppliedBefore(front, x, true, t, k);
    if k < |front| {
      LastLiveWins(m, front, t, k);
    }
  }

  lemma {:induction false} LastWins(m: map<Time, Sample>, samples: seq<Sample>, t: Time, k: nat)
    requires t != 0 && !SuppliesLive(samples, t) && !LiveAt(m, t) && LastSupplied(samples, false, t, k)
    ensures t in Merged(m, samples) && Merged(m, samples)[t] == samples[k].(time := t)
  {
    hide MinuteOf, LastSupplied;
    LastIsSupplied(samples, t, k);
    var front, x := samples[..|samples| - 1], samples[|samples| - 1];
    assert samples == front + [x];
    OneMore(front, x, t);
    MergeKeepsLive(m, front, t);
    LastSuppliedBefore(front, x, false, t, k);
    if k < |front| {
      LastWins(m, front, t, k);
    }
  }

  lemma LastIsSupplied(samples: seq<Sample>, t: Time, k: nat)
    requires LastSupplied(samples, false, t, k)
    ensures k < |samples| && MinuteOf(samples[k].time) == t
  {
  }

  lemma OneMore(front: seq<Sample>, x: Sample, t: Time)
    ensures SuppliesLive(front + [x], t) <==> SuppliesLive(front, t) || (MinuteOf(x.time) == t && x.source == LiveBook)
    ensures Supplies(front + [x], t) <==> Supplies(front, t) || MinuteOf(x.time) == t
  {
    var all := front + [x];
    assert all[|front|] == x;
    forall k | 0 <= k < |front| ensures all[k] == front[k] {}
    if SuppliesLive(front, t) {
      var k :| 0 <= k < |front| && MinuteOf(front[k].time) == t && front[k].source == LiveBook;
      assert all[k] == front[k];
    }
    if Supplies(front, t) {
      var k :| 0 <= k < |front| && MinuteOf(front[k].time) == t;
      assert all[k] == front[k];
    }
  }

  // ---- Runs ---------------------------------------------------------------------------------------

  /** The ring after any run of additions to an empty one. */
  function Fed(values: seq<real>, capacity: nat): seq<real> {
    if values == [] then [] else LastN(Fed(values[..|values| - 1], capacity) + [values[|values| - 1]], capacity)
  }

  /** A ring holds the last samples added, in order, as many as it has room for. */
  lemma {:induction false} RingHoldsTheLast(values: seq<real>, capacity: nat)
    ensures Fed(values, capacity) == LastN(values, capacity)
  {
    if values != [] {
      RingHoldsTheLast(values[..|values| - 1], capacity);
      LastNAbsorbs(values[..|values| - 1], values[|values| - 1], capacity);
      assert values == values[..|values| - 1] + [values[|values| - 1]];
    }
  }

  datatype Tick = Tick(now: Time, value: real)

  /** The minute of the last tick is later than that of every one before. */
  predicate EntersMinute(ts: seq<Tick>)
    requires ts != []
  {
    forall i :: 0 <= i < |ts| - 1 ==> ts[i].now / MINUTE < ts[|ts| - 1].now / MINUTE
  }

  /** One live sample for every tick that enters a new minute. */
  function NewMinutes(ts: seq<Tick>): seq<Sample> {
    if ts == [] then []
    else
      var t := ts[|ts| - 1];
      NewMinutes(ts[..|ts| - 1])
      + if EntersMinute(ts) then [Sample(t.now / MINUTE * MINUTE, t.value, LiveBook)] else []
  }

  /** The latest minute seen is that of the last of those samples. */
  lemma {:induction false} LatestMinute(ts: seq<Tick>, t: Time)
    requires ts != []
    ensures NewMinutes(ts) != []
    ensures t / MINUTE > LatestTime(NewMinutes(ts)) / MINUTE <==>
              forall i :: 0 <= i < |ts| ==> ts[i].now / MINUTE < t / MINUTE
    ensures LatestTime(NewMinutes(ts)) % MINUTE == 0
  {
    var front, last := ts[..|ts| - 1], ts[|ts| - 1];
    if front != [] {
      LatestMinute(front, t);
      LatestMinute(front, last.now);
      assert forall i :: 0 <= i < |front| ==> front[i] == ts[i];
    }
    MinutesOf(last.now);
  }

  lemma MinutesOf(t: Time)
    ensures t / MINUTE * MINUTE / MINUTE == t / MINUTE && t / MINUTE * MINUTE % MINUTE == 0
    ensures MinuteOf(t) == t / MINUTE * MINUTE
  {
  }

  /** Any run of updates leaves the newest of the samples with which its ticks entered new minutes. */
  lemma {:induction false} UpdatesSampleNewMinutes(window: nat, ts: seq<Tick>)
    requires window >= 1
    ensures ObservedAll([], window, ts) == LastN(NewMinutes(ts), window)
  {
    hide LastN, MinuteOf;
    if ts == [] {
      NothingIsLast(window);
    } else {
      var front, last := ts[..|ts| - 1], ts[|ts| - 1];
      UpdatesSampleNewMinutes(window, front);
      MinutesOf(last.now);
      var was := NewMinutes(front);
      if front != [] {
        LatestMinute(front, last.now);
        LastKeepsLatest(was, window);
        LaterMinute(last.now, LatestTime(was));
        assert forall i :: 0 <= i < |front| ==> front[i] == ts[i];
      } else {
        NothingIsLast(window);
      }
      assert was + [] == was;
      LastNAbsorbs(was, Sample(last.now / MINUTE * MINUTE, last.value, LiveBook), window);
    }
  }

  lemma NothingIsLast(window: nat)
    ensures LastN<Sample>([], window) == []
  {
  }

  lemma LastKeepsLatest(s: seq<Sample>, window: nat)
    requires s != [] && window >= 1
    ensures LastN(s, window) != [] && LatestTime(LastN(s, window)) == LatestTime(s)
  {
  }

  lemma LaterMinute(t: Time, minute: Time)
    requires minute % MINUTE == 0
    ensures MinuteOf(t) > minute <==> t / MINUTE > minute / MINUTE
  {
    MinutesOf(t);
    hide MinuteOf;
    assert minute == minute / MINUTE * MINUTE;
  }

  function ObservedAll(s: seq<Sample>, window: nat, ts: seq<Tick>): seq<Sample> {
    if ts == [] then s
    else Observed(ObservedAll(s, window, ts[..|ts| - 1]), window, ts[|ts| - 1].now, ts[|ts| - 1].value)
  }

  /** Any run of updates keeps the window minute-aligned, strictly increasing and within its capacity. */
  lemma {:induction false} UpdatesKeepForm(s: seq<Sample>, window: nat, ts: seq<Tick>)
    requires window >= 1 && WellFormed(s) && |s| <= window
    requires forall k :: 0 <= k < |ts| ==> ts[k].now >= MINUTE
    ensures WellFormed(ObservedAll(s, window, ts)) && |ObservedAll(s, window, ts)| <= window
  {
    hide WellFormed, LastN;
    if ts != [] {
      UpdatesKeepForm(s, window, ts[..|ts| - 1]);
      var was, t := ObservedAll(s, window, ts[..|ts| - 1]), ts[|ts| - 1];
      if was == [] || MinuteOf(t.now) > LatestTime(was) {
        AppendKeepsForm(was, Sample(MinuteOf(t.now), t.value, LiveBook), window);
      }
    }
  }
}
