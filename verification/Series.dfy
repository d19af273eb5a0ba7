/** The fixed-capacity ring buffer behind the rolling statistics. */
module Series {
  import opened Domain

  /** The last n elements of s, or all of s if it is shorter. */
  function LastN<T>(s: seq<T>, n: nat): (r: seq<T>)
    ensures |r| == if |s| < n then |s| else n
  {
    if |s| <= n then s else s[|s| - n..]
  }

  lemma LastNAbsorbs<T>(s: seq<T>, v: T, n: nat)
    ensures LastN(LastN(s, n) + [v], n) == LastN(s + [v], n)
  {
  }

  /** The stored samples of a ring, oldest first: slots from next on precede the earlier ones once it is full. */
  function Ring(slots: seq<real>, next: nat, full: bool): (s: seq<real>)
    requires next < |slots|
    ensures |s| == if full then |slots| else next
  {
    if full then slots[next..] + slots[..next] else slots[..next]
  }

  /** Overwriting the next slot and advancing appends to the stored samples, dropping the oldest when full. */
  lemma RingAdvances(slots: seq<real>, next: nat, full: bool, v: real)
    requires next < |slots|
    ensures var last := next + 1 == |slots|;
      Ring(slots[next := v], if last then 0 else next + 1, full || last)
      == LastN(Ring(slots, next, full) + [v], |slots|)
  {
    var after := slots[next := v];
    var kept := slots[..next];
    assert after[..next + 1] == kept + [v];
    if !full {
      if next + 1 == |slots| {
        assert Ring(after, 0, true) == after[..next + 1];
      }
    } else {
      var all := slots[next..] + kept + [v];
      assert all[1..] == slots[next + 1..] + (kept + [v]);
      assert after[next + 1..] == slots[next + 1..];
      assert LastN(all, |slots|) == all[1..];
      if next + 1 == |slots| {
        assert Ring(after, 0, true) == after[..next + 1];
      }
    }
  }

  class Window {
    const capacity: nat
    const values: array<real>
    var next: nat
    var full: bool

    ghost predicate Valid()
      reads this
    {
      capacity >= 2 && values.Length == capacity && next < capacity
    }

    /** The stored samples, oldest first. */
    ghost function Contents(): (s: seq<real>)
      requires Valid()
      reads this, values
      ensures |s| == if full then capacity else next
    {
      Ring(values[..], next, full)
    }

    constructor (size: nat)
      ensures Valid() && fresh(values) && Contents() == []
      ensures capacity == if size < 2 then 2 else size
    {
      capacity := if size < 2 then 2 else size;
      values := new real[if size < 2 then 2 else size];
      next, full := 0, false;
    }

    method Add(v: real)
      requires Valid()
      modifies `next, `full, values
      ensures Valid() && Contents() == LastN(old(Contents()) + [v], capacity)
    {
      hide Ring;
      RingAdvances(values[..], next, full, v);
      ghost var before := values[..];
      values[next] := v;
      assert values[..] == before[next := v];
      next := next + 1;
      if next >= capacity {
        next := 0;
        full := true;
      }
    }

    method Len() returns (n: nat)
      requires Valid()
      ensures n == |Contents()|
    {
      n := if full then capacity else next;
    }

    method Values() returns (out: array<real>)
      requires Valid()
      ensures fresh(out) && out[..] == Contents()
    {
      var n := Len();
      out := new real[n];
      if !full {
        forall i | 0 <= i < n {
          out[i] := values[i];
        }
        assert out[..] == values[..][..next];
        return;
      }
      forall i | 0 <= i < capacity - next {
        out[i] := values[next + i];
      }
      forall i | 0 <= i < next {
        out[capacity - next + i] := values[i];
      }
      assert out[..] == values[..][next..] + values[..][..next];
    }

    method Last() returns (v: Option<real>)
      requires Valid()
      ensures v == if Contents() == [] then None else Some(Contents()[|Contents()| - 1])
    {
      var n := Len();
      if n == 0 {
        return None;
      }
      var i := if next == 0 then capacity - 1 else next - 1;
      v := Some(values[i]);
    }
  }
}
