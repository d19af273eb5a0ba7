/** Real arithmetic shared by the model: absolute value, extremes and rounding to an exchange step. */
module Numbers {

  /** The rounding slack added before a quantity or price is floored. */
  const SLACK := 1e-12

  function Abs(x: real): (r: real)
    ensures r >= 0.0
  {
    if x < 0.0 then -x else x
  }

  function Max(x: real, y: real): (r: real)
    ensures x <= r && y <= r
  {
    if x < y then y else x
  }

  function Min(x: real, y: real): (r: real)
    ensures r <= x && r <= y
  {
    if y < x then y else x
  }

  function Clamp(v: real, lo: real, hi: real): real {
    if v < lo then lo else if v > hi then hi else v
  }

  /** Multiplication by name, so that a proof can treat the product as one quantity. */
  function Times(x: real, y: real): real {
    x * y
  }

  /** A quantity seen from a side: held or wanted there when positive. */
  function OnSide(q: real, long: bool): real {
    if long then q else -q
  }

  predicate SameSign(x: real, y: real) {
    (x > 0.0 && y > 0.0) || (x < 0.0 && y < 0.0)
  }

  /** The integer k with k <= x < k + 1 (Go's math.Floor). */
  function Floor(x: real): (k: int)
    ensures k as real <= x < k as real + 1.0
  {
    x.Floor
  }

  /** The integer k with k - 1 < x <= k (Go's math.Ceil). */
  function Ceil(x: real): (k: int)
    ensures k as real - 1.0 < x <= k as real
  {
    -((-x).Floor)
  }

  function Steps(k: int, step: real): real {
    k as real * step
  }

  ghost predicate IsMultiple(q: real, step: real) {
    exists k: int :: q == Steps(k, step)
  }

  /** With k the integer part of d, k steps lie within one step below d steps. */
  lemma WithinOneStep(d: real, k: real, step: real, x: real, y: real)
    requires step > 0.0 && k <= d < k + 1.0
    requires x == d * step && y == k * step
    ensures x - step < y <= x
  {
    var rest := d - k;
    MulStrict(rest, 1.0, step);
    assert rest * step == x - y;
    var gap := x - y;
    assert gap < step;
  }

  lemma FloorTimesStep(x: real, step: real)
    requires step > 0.0
    ensures x - step < Floor(x / step) as real * step <= x
  {
    var d, k := x / step, Floor(x / step) as real;
    assert d * step == x;
    WithinOneStep(d, k, step, x, k * step);
  }

  lemma CeilTimesStep(x: real, step: real)
    requires step > 0.0
    ensures x <= Ceil(x / step) as real * step < x + step
  {
    var d, k := x / step, Ceil(x / step) as real;
    assert d * step == x;
    assert -d * step == -x && -k * step == -(k * step);
    if k == d { } else { WithinOneStep(-d, -k, step, -x, -(k * step)); }
  }

  lemma FloorMonotone(x: real, y: real)
    requires x <= y
    ensures Floor(x) <= Floor(y)
  {
  }

  lemma MulMonotone(x: real, y: real, m: real)
    requires m >= 0.0 && x <= y
    ensures x * m <= y * m
  {
  }

  lemma MulStrict(x: real, y: real, m: real)
    requires m > 0.0 && x < y
    ensures x * m < y * m
  {
  }

  /** Quotients by m are at least one apart when their numerators are at least m apart. */
  lemma QuotientGap(a: real, b: real, m: real)
    requires m > 0.0 && a <= b - m
    ensures a / m <= b / m - 1.0
  {
    var x, y := a / m, b / m;
    assert x * m == a && y * m == b;
    ProductGap(x, y, m, a, b);
  }

  lemma ProductGap(x: real, y: real, m: real, a: real, b: real)
    requires m > 0.0 && x * m == a && y * m == b && a <= b - m
    ensures x <= y - 1.0
  {
    Distribute(x, 1.0, m);
    if y < x + 1.0 {
      MulStrict(y, x + 1.0, m);
    }
  }

  lemma DivMonotone(x: real, y: real, m: real)
    requires m > 0.0 && x <= y
    ensures x / m <= y / m
  {
  }

  lemma QuotientTimes(x: real, q: real)
    requires q > 0.0
    ensures x / q * q == x
  {
  }

  lemma Distribute(x: real, y: real, m: real)
    ensures (x + y) * m == x * m + y * m
  {
  }

  lemma Expand(c: real, x: real, y: real)
    ensures c * (x - y) == c * x - c * y
  {
  }

  lemma Negate(x: real, y: real)
    ensures -x * y == -(x * y)
  {
  }

  lemma TimesMonotone(x: real, y: real, m: real)
    requires m >= 0.0 && x <= y
    ensures Times(x, m) <= Times(y, m)
  {
  }

  lemma TimesStrict(x: real, y: real, m: real)
    requires m > 0.0 && x < y
    ensures Times(x, m) < Times(y, m)
  {
    MulStrict(x, y, m);
  }

  lemma TimesExpands(w: real, x: real, y: real)
    ensures Times(w, y - x) == Times(w, y) - Times(w, x)
  {
    Expand(w, y, x);
  }

  lemma TimesAtMost(x: real, t: real)
    requires x >= 0.0 && t <= 1.0
    ensures Times(x, t) <= x
  {
    MulMonotone(t, 1.0, x);
  }

  lemma NamedFraction(c: real, g: real, t: real)
    requires c <= g && g >= 0.0 && 0.0 <= t <= 1.0
    ensures Times(c, t) <= g
  {
    hide Times;
    TimesMonotone(c, g, t);
    TimesAtMost(g, t);
  }

  lemma TimesFraction(c: real, g: real, t: real)
    requires c <= g && g >= 0.0 && 0.0 <= t <= 1.0
    ensures c * t <= g
  {
    NamedFraction(c, g, t);
  }

  lemma FractionOf(x: real, t: real)
    requires x >= 0.0 && 0.0 <= t <= 1.0
    ensures 0.0 <= Times(x, t) <= x
  {
    FractionWithin(x, t);
  }

  lemma FractionTimes(c: real, x: real)
    requires c <= 1.0 && x >= 0.0
    ensures Times(c, x) <= x
  {
    MulMonotone(c, 1.0, x);
  }

  lemma TimesCommutes(x: real, y: real)
    ensures Times(x, y) == Times(y, x)
    ensures Times(0.0, y) == 0.0
  {
  }

  lemma NegatedTimes(x: real, y: real)
    ensures Times(-x, y) == -Times(x, y)
  {
    Negate(x, y);
  }

  /** A fraction of a non-negative quantity lies between zero and the quantity. */
  lemma FractionWithin(x: real, t: real)
    requires x >= 0.0 && 0.0 <= t <= 1.0
    ensures 0.0 <= x * t <= x && Times(x, t) == x * t
  {
    TimesFraction(x, x, t);
  }

  lemma BoundedTimesFraction(c: real, g: real, t: real)
    requires -g <= c <= g && 0.0 <= t <= 1.0
    ensures -g <= c * t <= g
  {
    TimesFraction(c, g, t);
    TimesFraction(-c, g, t);
    Negate(c, t);
  }
}
