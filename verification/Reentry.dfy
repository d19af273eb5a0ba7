/**
 * When a stop-out block can lift, and when it keeps its side shut, over the questions the bot can really be asked:
 * those whose features, regime and fair value fit together.
 */
module Reentry {
  import opened Numbers
  import opened Domain
  import opened Strategy

  // ---- Questions that can be asked ----------------------------------------------------------------

  /**
   * What feeds the questions: the squashing of a basis deviation into a score, tanh(z/2), with its least upper bound;
   * the confidence a fair value stays below, because of its model buffer, and stays below when its routes disagree; and
   * the uncertainty reported with a confidence.
   */
  datatype Sources = Sources(
    squash: real -> real, ceiling: real, confidence: real, dispersed: real, uncertainty: real -> real)
  {
    ghost predicate Passes(x: real) {
      exists z :: squash(z) > x
    }

    ghost predicate PassesBefore(x: real, z: real) {
      exists y :: y < z && squash(y) > x
    }

    /** Odd, increasing and without jumps up to its bound; and a disagreement never adds confidence. */
    ghost predicate Valid() {
      && (forall z :: squash(-z) == -squash(z))
      && (forall y, z :: y < z ==> squash(y) < squash(z))
      && (forall x, z :: x < squash(z) ==> PassesBefore(x, z))
      && (forall z :: squash(z) <= ceiling) && ceiling > 0.0
      && (forall x :: x < ceiling ==> Passes(x))
      && dispersed <= confidence
    }
  }

  /** A regime, and whether the basis deviation is wide enough for a dislocation. */
  datatype Gate = Gate(regime: Regime, wide: bool)

  function GateOf(cfg: StrategyConfig, inp: Input): Gate {
    Gate(inp.regime, Abs(inp.features.basisZ) >= cfg.dislocationZ)
  }

  /** The sizes of trend and basis deviation for which the regime classifier can answer this trading regime. */
  predicate Admits(cfg: StrategyConfig, g: Gate, x: real, z: real) {
    && (if g.regime == Trend then x >= cfg.trendThreshold else x < cfg.trendThreshold && x <= cfg.trendVeto)
    && (g.wide <==> z >= cfg.dislocationZ)
    && (g.regime == Dislocation ==> g.wide)
  }

  /** The confidence a fair value stays below: a wide deviation is a range only while the routes disagree. */
  function Trusted(src: Sources, g: Gate): real {
    if g.regime == Range && g.wide then src.dispersed else src.confidence
  }

  /** A confidence is cut off at zero and at one: a limit of zero or less leaves zero, and one beyond one leaves one. */
  predicate Reportable(trusted: real, c: real) {
    c == 0.0 || (0.0 < c < trusted && c <= 1.0)
  }

  /** Features, regime and fair value fit together. */
  predicate Plausible(cfg: StrategyConfig, src: Sources, inp: Input) {
    var f := inp.features;
    && (Trades(inp.regime) ==>
          inp.direct.Valid() && inp.fair.valid && Admits(cfg, GateOf(cfg, inp), Abs(f.trendScore), Abs(f.basisZ)))
    && Abs(f.trendScore) <= 1.0 && Abs(f.microScore) <= 1.0 && f.basisScore == -src.squash(f.basisZ)
    && Reportable(Trusted(src, GateOf(cfg, inp)), inp.fair.confidence)
    && (0.0 < inp.fair.confidence < 1.0 ==> inp.fair.uncertaintyBps == src.uncertainty(inp.fair.confidence))
  }

  predicate Trades(r: Regime) {
    r == Trend || r == Dislocation || r == Range
  }

  // ---- Scores -------------------------------------------------------------------------------------

  /** The strongest score with trend and basis scores of these sizes. */
  function Score(cfg: StrategyConfig, r: Regime, x: real, y: real): real {
    var w := WeightsFor(cfg, r);
    Times(Abs(w.trend), x) + Times(Abs(w.basis), y) + Abs(w.micro)
  }

  lemma ProductBound(w: real, x: real, bound: real)
    requires Abs(x) <= bound
    ensures -Times(Abs(w), bound) <= Times(w, x) <= Times(Abs(w), bound)
  {
    hide Times;
    AbsProduct(w, x);
    TimesCommutes(Abs(w), bound);
    TimesMonotone(Abs(x), bound, Abs(w));
  }

  lemma AbsProduct(w: real, x: real)
    ensures Abs(Times(w, x)) == Times(Abs(x), Abs(w))
  {
    Negate(w, x);
    if w > 0.0 && x > 0.0 {
      MulStrict(0.0, x, w);
    } else if w > 0.0 && x < 0.0 {
      MulStrict(x, 0.0, w);
    } else if w < 0.0 && x > 0.0 {
      MulStrict(0.0, x, -w);
    } else if w < 0.0 && x < 0.0 {
      MulStrict(x, 0.0, -w);
    }
  }

  lemma TimesOne(x: real)
    ensures Times(x, 1.0) == x
  {
  }

  lemma ScoreIsBounded(cfg: StrategyConfig, inp: Input, x: real, y: real)
    requires Abs(inp.features.trendScore) <= x && Abs(inp.features.basisScore) <= y
    requires Abs(inp.features.microScore) <= 1.0
    ensures Abs(RawScore(cfg, inp)) <= Score(cfg, inp.regime, x, y)
  {
    hide Times;
    var w := WeightsFor(cfg, inp.regime);
    ProductBound(w.trend, inp.features.trendScore, x);
    ProductBound(w.basis, inp.features.basisScore, y);
    ProductBound(w.micro, inp.features.microScore, 1.0);
    TimesOne(Abs(w.micro));
  }

  lemma ScoreGrows(cfg: StrategyConfig, r: Regime, x: real, x': real, y: real, y': real)
    requires x <= x' && y <= y'
    ensures Score(cfg, r, x, y) <= Score(cfg, r, x', y')
    ensures WeightsFor(cfg, r).trend != 0.0 && x < x' ==> Score(cfg, r, x, y) < Score(cfg, r, x', y')
    ensures WeightsFor(cfg, r).basis != 0.0 && y < y' ==> Score(cfg, r, x, y) < Score(cfg, r, x', y')
  {
    hide Times;
    var w := WeightsFor(cfg, r);
    TimesGrows(Abs(w.trend), x, x');
    TimesGrows(Abs(w.basis), y, y');
  }

  lemma ScoreGap(cfg: StrategyConfig, r: Regime, x: real, x': real, y: real, y': real)
    requires x <= x' && y <= y'
    ensures Score(cfg, r, x', y') - Score(cfg, r, x, y)
         == Times(Abs(WeightsFor(cfg, r).trend), x' - x) + Times(Abs(WeightsFor(cfg, r).basis), y' - y)
  {
    hide Times;
    TimesGrows(Abs(WeightsFor(cfg, r).trend), x, x');
    TimesGrows(Abs(WeightsFor(cfg, r).basis), y, y');
  }

  lemma TimesGrows(w: real, x: real, y: real)
    requires w >= 0.0 && x <= y
    ensures Times(w, x) <= Times(w, y) && Times(w, y) - Times(w, x) == Times(w, y - x)
    ensures w > 0.0 && x < y ==> Times(w, x) < Times(w, y)
    ensures w == 0.0 ==> Times(w, x) == 0.0 == Times(w, y)
  {
    hide Times;
    TimesCommutes(w, x);
    TimesCommutes(w, y);
    TimesMonotone(x, y, w);
    TimesExpands(w, x, y);
    if w > 0.0 && x < y {
      TimesStrict(x, y, w);
    }
    if w == 0.0 {
      TimesCommutes(0.0, x);
      TimesCommutes(0.0, y);
    }
  }

  lemma ScoreIsNonNegative(cfg: StrategyConfig, r: Regime, x: real, y: real)
    requires x >= 0.0 && y >= 0.0
    ensures Score(cfg, r, x, y) >= 0.0
  {
    hide Times;
    var w := WeightsFor(cfg, r);
    TimesGrows(Abs(w.trend), 0.0, x);
    TimesGrows(Abs(w.basis), 0.0, y);
    TimesCommutes(0.0, Abs(w.trend));
    TimesCommutes(0.0, Abs(w.basis));
    TimesCommutes(Abs(w.trend), 0.0);
    TimesCommutes(Abs(w.basis), 0.0);
  }

  /** A size just below a bound, so close that a weight makes less than the slack of the difference. */
  function JustBelow(w: real, bound: real, slack: real): real
    requires w >= 0.0
  {
    bound - Min(bound, slack / (w + 1.0))
  }

  lemma JustBelowIsClose(w: real, bound: real, slack: real)
    requires w >= 0.0 && bound > 0.0 && slack > 0.0
    ensures 0.0 <= JustBelow(w, bound, slack) < bound
    ensures Times(w, bound - JustBelow(w, bound, slack)) < slack
  {
    var d := slack / (w + 1.0);
    assert d * (w + 1.0) == slack;
    if d <= 0.0 {
      MulMonotone(d, 0.0, w + 1.0);
    }
    var e := Min(bound, d);
    MulMonotone(e, d, w);
    Distribute(w, 1.0, d);
  }

  // ---- Thresholds ---------------------------------------------------------------------------------

  /** A score of this size on this side enters it. */
  predicate Reaches(cfg: StrategyConfig, long: bool, v: real) {
    if long then v >= cfg.longEntry else v >= cfg.shortEntry && -v < cfg.longEntry
  }

  /** It enters with more than the threshold, so that some score just below it does too. */
  predicate ReachesBeyond(cfg: StrategyConfig, long: bool, v: real) {
    if long then v > cfg.longEntry else v > cfg.shortEntry && -v < cfg.longEntry
  }

  /** The confidence a score of this size does not pass. */
  function ConfidenceBound(trusted: real, v: real): real {
    Times(Min(trusted, 1.0), 0.55 + 0.45 * v)
  }

  /**
   * Some confidence of at least the floor can be reported with a score of this size, or with scores that only approach
   * it; the bound itself is reported with that very score and a confidence of one.
   */
  predicate Confident(trusted: real, v: real, floor: real, approached: bool) {
    var bound := ConfidenceBound(trusted, v);
    floor <= 1.0 && (bound > floor || (trusted > 1.0 && !approached && bound == floor))
  }

  lemma ConfidenceGrows(trusted: real, v: real, top: real)
    requires 0.0 < trusted && 0.0 <= v <= top
    ensures 0.0 < ConfidenceBound(trusted, v) <= ConfidenceBound(trusted, top)
    ensures v < top ==> ConfidenceBound(trusted, v) < ConfidenceBound(trusted, top)
    ensures ConfidenceBound(trusted, top) - ConfidenceBound(trusted, v) <= top - v
  {
    hide Times;
    var a, b := 0.55 + 0.45 * v, 0.55 + 0.45 * top;
    TimesGrows(Min(trusted, 1.0), a, b);
    TimesGrows(Min(trusted, 1.0), 0.0, a);
    TimesCommutes(Min(trusted, 1.0), 0.0);
    FractionTimes(Min(trusted, 1.0), b - a);
  }

  /** A positive confidence is within the bound of its score, and below it but for a confidence of one. */
  lemma ConfidenceIsBounded(trusted: real, inp: Input, raw: real, top: real)
    requires Reportable(trusted, inp.fair.confidence) && Abs(raw) <= top
    ensures Confidence(inp, raw) <= 1.0
    ensures var c, bound := Confidence(inp, raw), ConfidenceBound(trusted, top);
      c > 0.0 ==> c <= bound && (trusted <= 1.0 || Abs(raw) < top ==> c < bound)
  {
    hide Times;
    var k := 0.55 + 0.45 * Abs(raw);
    TimesCommutes(0.0, k);
    if inp.fair.confidence > 0.0 {
      ConfidenceGrows(trusted, Abs(raw), top);
      TimesMonotone(inp.fair.confidence, Min(trusted, 1.0), k);
      if trusted <= 1.0 {
        TimesStrict(inp.fair.confidence, trusted, k);
      }
    }
  }

  lemma BoundNeedsTrust(trusted: real, v: real)
    requires v >= 0.0 && ConfidenceBound(trusted, v) > 0.0
    ensures trusted > 0.0
  {
    if trusted <= 0.0 {
      MulMonotone(Min(trusted, 1.0), 0.0, 0.55 + 0.45 * v);
    }
  }

  /** The room left above every threshold by a score that passes them all. */
  function Room(cfg: StrategyConfig, trusted: real, long: bool, top: real, floor: real): real {
    Min(if long then top - cfg.longEntry else Min(top - cfg.shortEntry, top + cfg.longEntry),
        ConfidenceBound(trusted, top) - floor)
  }

  lemma WithinRoom(cfg: StrategyConfig, trusted: real, long: bool, top: real, floor: real, v: real)
    requires 0.0 < trusted && ReachesBeyond(cfg, long, top) && Confident(trusted, top, floor, true)
    requires 0.0 <= v <= top && top - v < Room(cfg, trusted, long, top, floor)
    ensures ReachesBeyond(cfg, long, v) && Confident(trusted, v, floor, true)
  {
    hide ConfidenceBound;
    ConfidenceGrows(trusted, v, top);
  }

  // ---- A question with a given score and confidence -----------------------------------------------

  /** A number of the given size and the sign of the side times the sign of the weight. */
  function Leaning(long: bool, weight: real, size: real): real {
    if (weight >= 0.0) == long then size else -size
  }

  lemma LeaningProduct(long: bool, weight: real, size: real)
    ensures Times(weight, Leaning(long, weight, size))
         == if long then Times(Abs(weight), size) else -Times(Abs(weight), size)
  {
    Negate(weight, size);
  }

  /** An edge in basis points above every cost. */
  function AmpleEdge(cfg: StrategyConfig, u: real): real {
    Abs(cfg.minimumEdgeBps) + Abs(cfg.shortBufferBps) + Abs(u) + 1.0
  }

  /**
   * A flat account's question with trend size x, basis deviation size z, full micro score and confidence c, all on one
   * side, with books that give that side an ample edge.
   */
  function Leant(
    cfg: StrategyConfig, src: Sources, now: Time, long: bool, r: Regime, x: real, z: real, c: real): Input
  {
    var w, u := WeightsFor(cfg, r), src.uncertainty(c);
    var far := 1.0 + AmpleEdge(cfg, u) / 10000.0;
    var d := -Leaning(long, w.basis, z);
    Input(now, r, Features(d, -src.squash(d), Leaning(long, w.trend, x), Leaning(long, w.micro, 1.0), 0.0),
          if long then FairValue(true, far, far, far, c, u) else FairValue(true, 1.0, 1.0, 1.0, c, u),
          if long then Book(0.9999, 1.0, 1.0, 1.0, 0.0, 1) else Book(far, far + 0.0001, 1.0, 1.0, 0.0, 1),
          FundingRate(true, 0.0, now - cfg.fundingMaxAge), 0.0)
  }

  lemma SquashLeans(src: Sources, long: bool, weight: real, z: real)
    requires src.Valid()
    ensures -src.squash(-Leaning(long, weight, z)) == Leaning(long, weight, src.squash(z))
  {
    assert src.squash(-z) == -src.squash(z);
  }

  lemma LeantScore(cfg: StrategyConfig, src: Sources, now: Time, long: bool, r: Regime, x: real, z: real, c: real)
    requires src.Valid()
    ensures var v := Score(cfg, r, x, src.squash(z));
      RawScore(cfg, Leant(cfg, src, now, long, r, x, z, c)) == if long then v else -v
  {
    hide Times, AmpleEdge;
    var w := WeightsFor(cfg, r);
    SquashLeans(src, long, w.basis, z);
    LeaningProduct(long, w.trend, x);
    LeaningProduct(long, w.basis, src.squash(z));
    LeaningProduct(long, w.micro, 1.0);
    TimesOne(Abs(w.micro));
  }

  lemma LeantIsPlausible(cfg: StrategyConfig, src: Sources, now: Time, long: bool, g: Gate, x: real, z: real, c: real)
    requires 0.0 <= x <= 1.0 && z >= 0.0 && Reportable(Trusted(src, g), c) && Admits(cfg, g, x, z)
    ensures Plausible(cfg, src, Leant(cfg, src, now, long, g.regime, x, z, c))
    ensures Leant(cfg, src, now, long, g.regime, x, z, c).direct.Valid()
  {
    hide Admits;
    assert AmpleEdge(cfg, src.uncertainty(c)) / 10000.0 > 0.0;
    assert GateOf(cfg, Leant(cfg, src, now, long, g.regime, x, z, c)) == g by {
      LeantGate(cfg, src, now, long, g, x, z, c);
    }
  }

  lemma LeantGate(cfg: StrategyConfig, src: Sources, now: Time, long: bool, g: Gate, x: real, z: real, c: real)
    requires z >= 0.0 && Admits(cfg, g, x, z)
    ensures GateOf(cfg, Leant(cfg, src, now, long, g.regime, x, z, c)) == g
  {
  }

  /** The confidence to report so that a given one results. */
  function Reported(v: real, q: real): real
    requires v >= 0.0
  {
    q / (0.55 + 0.45 * v)
  }

  lemma ReportedGives(trusted: real, inp: Input, raw: real, q: real)
    requires inp.fair.confidence == Reported(Abs(raw), q)
    requires q == 0.0 || (q > 0.0 && Confident(trusted, Abs(raw), q, false))
    ensures Confidence(inp, raw) == q && Reportable(trusted, inp.fair.confidence)
  {
    var k := 0.55 + 0.45 * Abs(raw);
    QuotientTimes(q, k);
    if q == 0.0 {
      assert 0.0 / k == 0.0;
    } else {
      QuotientWithin(q, k, Min(trusted, 1.0));
    }
    hide Reported;
  }

  lemma QuotientWithin(q: real, k: real, most: real)
    requires k > 0.0 && 0.0 < q <= Times(most, k)
    ensures 0.0 < q / k <= most && (q < Times(most, k) ==> q / k < most)
  {
    var c := q / k;
    QuotientTimes(q, k);
    if c <= 0.0 {
      MulMonotone(c, 0.0, k);
    } else if c >= most {
      MulMonotone(most, c, k);
      if c > most {
        MulStrict(most, c, k);
      }
    }
  }

  // ---- Basis deviations ---------------------------------------------------------------------------

  lemma SquashIsSigned(src: Sources, z: real, bound: real)
    requires src.Valid() && Abs(z) <= bound
    ensures Abs(src.squash(z)) <= src.squash(bound) <= src.ceiling && src.squash(bound) >= 0.0
    ensures bound > 0.0 ==> src.squash(bound) > 0.0
    ensures Abs(z) < bound ==> Abs(src.squash(z)) < src.squash(bound)
  {
    assert src.squash(-bound) == -src.squash(bound);
    assert src.squash(-0.0) == -src.squash(0.0);
    assert bound > 0.0 ==> src.squash(0.0) < src.squash(bound);
    assert z < bound ==> src.squash(z) < src.squash(bound);
    assert -bound < z ==> src.squash(-bound) < src.squash(z);
  }

  /** A basis deviation whose score is above a level, and which is at least as large as a given one. */
  lemma DeviationAbove(src: Sources, level: real, least: real) returns (z: real)
    requires src.Valid() && 0.0 <= level < src.ceiling
    ensures z >= 0.0 && z >= least && level < src.squash(z) <= src.ceiling
  {
    assert src.Passes(level);
    var y :| src.squash(y) > level;
    z := Max(Max(0.0, least), y);
    assert y < z ==> src.squash(y) < src.squash(z);
  }

  /** A basis deviation whose score is above a level, and which is smaller than a given one. */
  lemma DeviationBefore(src: Sources, level: real, limit: real) returns (z: real)
    requires src.Valid() && 0.0 <= level < src.squash(limit) && limit > 0.0
    ensures 0.0 <= z < limit && level < src.squash(z) < src.squash(limit)
  {
    assert src.PassesBefore(level, limit);
    var y :| y < limit && src.squash(y) > level;
    z := Max(0.0, y);
    assert y < z ==> src.squash(y) < src.squash(z);
    assert src.squash(z) < src.squash(limit);
  }

  // ---- When a block can lift ----------------------------------------------------------------------

  ghost predicate Lifts(cfg: StrategyConfig, src: Sources, b: Blocks, long: bool, r: Regime, inp: Input) {
    inp.regime == r && Plausible(cfg, src, inp) && BlocksAfter(cfg, b, inp).At(long) == 0
  }

  /** The largest trend size a reset thesis can have in this regime, or its bound where that size is excluded. */
  function ResetTrend(cfg: StrategyConfig, r: Regime): real {
    var reset := Min(cfg.resetTrend, 1.0);
    if r == Trend then reset else Min(reset, Min(cfg.trendVeto, cfg.trendThreshold))
  }

  predicate TrendExcluded(cfg: StrategyConfig, r: Regime) {
    r != Trend && cfg.trendThreshold <= Min(Min(cfg.resetTrend, 1.0), cfg.trendVeto)
  }

  /** The largest basis deviation of a reset thesis, or its bound where that deviation is excluded. */
  function ResetBasis(cfg: StrategyConfig, g: Gate): real {
    if g.wide then cfg.resetBasisZ else Min(cfg.resetBasisZ, cfg.dislocationZ)
  }

  predicate BasisExcluded(cfg: StrategyConfig, g: Gate) {
    !g.wide && cfg.dislocationZ <= cfg.resetBasisZ
  }

  /** A reset thesis and the classifier's conditions have questions in common. */
  predicate ResetFits(cfg: StrategyConfig, g: Gate) {
    && Trades(g.regime) && cfg.resetTrend >= 0.0 && cfg.resetBasisZ >= 0.0
    && (if g.regime == Trend then cfg.trendThreshold <= ResetTrend(cfg, Trend)
        else cfg.trendThreshold > 0.0 && cfg.trendVeto >= 0.0)
    && (if g.wide then cfg.dislocationZ <= cfg.resetBasisZ else cfg.dislocationZ > 0.0)
    && (g.regime == Dislocation ==> g.wide)
  }

  /** The strongest score of a reset thesis. */
  function ResetScore(cfg: StrategyConfig, src: Sources, g: Gate): real {
    Score(cfg, g.regime, ResetTrend(cfg, g.regime), src.squash(ResetBasis(cfg, g)))
  }

  /** Scores only come close to that one. */
  predicate OnlyApproached(cfg: StrategyConfig, g: Gate) {
    var w := WeightsFor(cfg, g.regime);
    (TrendExcluded(cfg, g.regime) && w.trend != 0.0) || (BasisExcluded(cfg, g) && w.basis != 0.0)
  }

  /** Enough confidence can be reported with a score of this size. */
  predicate MinimumIsReported(cfg: StrategyConfig, trusted: real, v: real, approached: bool) {
    cfg.minimumConfidence <= 0.0 || Confident(trusted, v, cfg.minimumConfidence, approached)
  }

  /** The strongest reset score gets over the entry threshold of its side, with enough confidence. */
  predicate Releasable(cfg: StrategyConfig, src: Sources, long: bool, g: Gate) {
    var top := ResetScore(cfg, src, g);
    && ResetFits(cfg, g)
    && (if OnlyApproached(cfg, g) then ReachesBeyond(cfg, long, top) else Reaches(cfg, long, top))
    && MinimumIsReported(cfg, Trusted(src, g), top, OnlyApproached(cfg, g))
  }

  /** A lifting question is a reset thesis over the entry threshold of its side. */
  lemma LiftingIsReset(cfg: StrategyConfig, b: Blocks, long: bool, inp: Input)
    requires b.At(long) != 0 && BlocksAfter(cfg, b, inp).At(long) == 0
    ensures Trades(inp.regime)
    ensures Abs(inp.features.basisZ) <= cfg.resetBasisZ && Abs(inp.features.trendScore) <= cfg.resetTrend
    ensures var raw := RawScore(cfg, inp);
      && Confidence(inp, raw) >= cfg.minimumConfidence
      && (if long then raw >= cfg.longEntry else raw <= -cfg.shortEntry && raw < cfg.longEntry)
  {
    hide RawScore, Confidence, ThesisEnded;
  }

  lemma LiftNeedsReleasable(cfg: StrategyConfig, src: Sources, b: Blocks, long: bool, inp: Input)
    requires src.Valid() && b.At(long) != 0 && Lifts(cfg, src, b, long, inp.regime, inp)
    ensures Releasable(cfg, src, long, GateOf(cfg, inp))
  {
    hide RawScore, Score, Confidence, ConfidenceBound, BlocksAfter;
    var f, g := inp.features, GateOf(cfg, inp);
    var raw, top := RawScore(cfg, inp), ResetScore(cfg, src, g);
    var x, z := Abs(f.trendScore), Abs(f.basisZ);
    LiftingIsReset(cfg, b, long, inp);
    SquashIsSigned(src, f.basisZ, z);
    SquashIsSigned(src, z, ResetBasis(cfg, g));
    ScoreIsBounded(cfg, inp, x, src.squash(z));
    ScoreGrows(cfg, g.regime, x, ResetTrend(cfg, g.regime), src.squash(z), src.squash(ResetBasis(cfg, g)));
    ConfidenceIsBounded(Trusted(src, g), inp, raw, top);
  }

  /** A trend size of a reset thesis so close to the largest that the score loses less than the slack. */
  function TrendBefore(cfg: StrategyConfig, r: Regime, slack: real): real {
    var w := Abs(WeightsFor(cfg, r).trend);
    if !TrendExcluded(cfg, r) then ResetTrend(cfg, r) else if w == 0.0 then 0.0
    else JustBelow(w, ResetTrend(cfg, r), slack)
  }

  lemma TrendIsClose(cfg: StrategyConfig, g: Gate, slack: real)
    requires ResetFits(cfg, g) && slack > 0.0
    ensures var x, w := TrendBefore(cfg, g.regime, slack), WeightsFor(cfg, g.regime).trend;
      var big := ResetTrend(cfg, g.regime);
      && 0.0 <= x && (if TrendExcluded(cfg, g.regime) then x < big else x == big)
      && Times(Abs(w), big - x) < slack
      && (!TrendExcluded(cfg, g.regime) || w == 0.0 ==> Times(Abs(w), big - x) == 0.0)
  {
    hide JustBelow;
    if TrendExcluded(cfg, g.regime) {
      JustBelowIsClose(Abs(WeightsFor(cfg, g.regime).trend), ResetTrend(cfg, g.regime), slack);
    }
  }

  /** A basis deviation of a reset thesis with the same property. */
  lemma BasisIsClose(cfg: StrategyConfig, src: Sources, g: Gate, slack: real) returns (z: real)
    requires src.Valid() && ResetFits(cfg, g) && slack > 0.0
    ensures var y, w, big := src.squash(z), WeightsFor(cfg, g.regime).basis, src.squash(ResetBasis(cfg, g));
      && 0.0 <= z && (if BasisExcluded(cfg, g) then z < ResetBasis(cfg, g) else z == ResetBasis(cfg, g))
      && 0.0 <= y <= big && Times(Abs(w), big - y) < slack
      && (!BasisExcluded(cfg, g) || w == 0.0 ==> Times(Abs(w), big - y) == 0.0)
  {
    hide JustBelow, Times;
    var w, big := Abs(WeightsFor(cfg, g.regime).basis), src.squash(ResetBasis(cfg, g));
    z := ResetBasis(cfg, g);
    if BasisExcluded(cfg, g) {
      z := 0.0;
      SquashIsSigned(src, 0.0, ResetBasis(cfg, g));
      if w != 0.0 {
        JustBelowIsClose(w, big, slack);
        z := DeviationBefore(src, JustBelow(w, big, slack), cfg.dislocationZ);
        TimesGrows(w, big - src.squash(z), big - JustBelow(w, big, slack));
      }
    }
    SquashIsSigned(src, 0.0, z);
    SquashIsSigned(src, z, ResetBasis(cfg, g));
    TimesGrows(w, 0.0, big - src.squash(z));
    TimesZero(w);
  }

  lemma TimesZero(w: real)
    ensures Times(w, 0.0) == 0.0
  {
  }

  /** The sizes of the strongest question that lifts a block. */
  lemma LiftingSizes(cfg: StrategyConfig, src: Sources, long: bool, g: Gate) returns (x: real, z: real)
    requires src.Valid() && Releasable(cfg, src, long, g)
    ensures 0.0 <= x <= cfg.resetTrend && x <= 1.0 && 0.0 <= z <= cfg.resetBasisZ && Admits(cfg, g, x, z)
    ensures var v := Score(cfg, g.regime, x, src.squash(z));
      v >= 0.0 && Reaches(cfg, long, v) && MinimumIsReported(cfg, Trusted(src, g), v, false)
  {
    hide Score, ConfidenceBound, TrendBefore, Times;
    var top, floor := ResetScore(cfg, src, g), EnoughConfidence(cfg);
    var big, far := ResetTrend(cfg, g.regime), ResetBasis(cfg, g);
    SquashIsSigned(src, far, far);
    ScoreIsNonNegative(cfg, g.regime, big, src.squash(far));
    var limit := if cfg.minimumConfidence <= 0.0 then 1.0 else Trusted(src, g);
    if 0.0 < cfg.minimumConfidence && limit <= 1.0 {
      BoundNeedsTrust(limit, top);
    }
    ConfidenceGrows(limit, top, top);
    var slack := if OnlyApproached(cfg, g) then Room(cfg, limit, long, top, floor) / 2.0 else 1.0;
    x := TrendBefore(cfg, g.regime, slack);
    TrendIsClose(cfg, g, slack);
    z := BasisIsClose(cfg, src, g, slack);
    var y := src.squash(z);
    ScoreIsNonNegative(cfg, g.regime, x, y);
    ScoreGap(cfg, g.regime, x, big, y, src.squash(far));
    ScoreGrows(cfg, g.regime, x, big, y, src.squash(far));
    if OnlyApproached(cfg, g) {
      WithinRoom(cfg, limit, long, top, floor, Score(cfg, g.regime, x, y));
    }
  }

  /** Enough confidence to enter: the minimum, or none if none is needed. */
  function EnoughConfidence(cfg: StrategyConfig): real {
    Max(0.0, cfg.minimumConfidence)
  }

  /** A reset question of a side, asked once the cooldown is over, with the score of these sizes. */
  function ResetQuestion(
    cfg: StrategyConfig, src: Sources, at: Time, long: bool, r: Regime, x: real, z: real): Input
  {
    var v := Score(cfg, r, x, src.squash(z));
    Leant(cfg, src, at + cfg.cooldown, long, r, x, z, Reported(Max(0.0, v), EnoughConfidence(cfg)))
  }

  lemma ReleasableLifts(cfg: StrategyConfig, src: Sources, b: Blocks, long: bool, g: Gate) returns (inp: Input)
    requires src.Valid() && b.At(long) != 0 && Releasable(cfg, src, long, g)
    ensures Lifts(cfg, src, b, long, g.regime, inp)
  {
    hide Score, ConfidenceBound, Confidence, RawScore, Reported, Leaning, ResetScore, Admits, Plausible,
         OnlyApproached;
    var x, z := LiftingSizes(cfg, src, long, g);
    inp := ResetQuestion(cfg, src, b.At(long), long, g.regime, x, z);
    var v, q := Score(cfg, g.regime, x, src.squash(z)), EnoughConfidence(cfg);
    LeantScore(cfg, src, inp.now, long, g.regime, x, z, inp.fair.confidence);
    ReportedGives(Trusted(src, g), inp, RawScore(cfg, inp), q);
    LeantIsPlausible(cfg, src, inp.now, long, g, x, z, inp.fair.confidence);
    LeantIsReset(cfg, src, inp.now, long, g.regime, x, z, inp.fair.confidence);
  }

  lemma LeantIsReset(cfg: StrategyConfig, src: Sources, now: Time, long: bool, r: Regime, x: real, z: real, c: real)
    requires 0.0 <= x <= cfg.resetTrend && 0.0 <= z <= cfg.resetBasisZ
    ensures var inp := Leant(cfg, src, now, long, r, x, z, c);
      && Abs(inp.features.basisZ) <= cfg.resetBasisZ && Abs(inp.features.trendScore) <= cfg.resetTrend
      && inp.currentExposure == 0.0 && inp.regime == r && inp.now == now && inp.fair.confidence == c
  {
  }

  /**
   * A block is only looked at when the score is over the entry threshold, so it can lift in a regime if and only if a
   * reset thesis passes the classifier's conditions for that regime and its strongest score gets over the threshold:
   * otherwise neither time nor reset ever lifts it there.
   */
  lemma LiftsIffReleasable(cfg: StrategyConfig, src: Sources, b: Blocks, long: bool, r: Regime)
    requires src.Valid() && b.At(long) != 0
    ensures (exists inp :: Lifts(cfg, src, b, long, r, inp))
        <==> Liftable(cfg, src, long, r)
  {
    hide Lifts, Releasable;
    if inp :| Lifts(cfg, src, b, long, r, inp) {
      LiftKeepsRegime(cfg, src, b, long, r, inp);
      LiftNeedsReleasable(cfg, src, b, long, inp);
    }
    if Releasable(cfg, src, long, Gate(r, false)) {
      var inp := ReleasableLifts(cfg, src, b, long, Gate(r, false));
    }
    if Releasable(cfg, src, long, Gate(r, true)) {
      var inp := ReleasableLifts(cfg, src, b, long, Gate(r, true));
    }
  }

  lemma LiftKeepsRegime(cfg: StrategyConfig, src: Sources, b: Blocks, long: bool, r: Regime, inp: Input)
    requires Lifts(cfg, src, b, long, r, inp)
    ensures inp.regime == r && Lifts(cfg, src, b, long, inp.regime, inp)
  {
  }

  /**
   * Under the defaults only the range regime can lift a block: a trend needs a trend score of 0.45 and a dislocation a
   * deviation of 2.1, where a reset allows 0.2 and 1.0. The bounds are those of tanh(1/2) and of a three-point model
   * buffer against a seventy-point scale.
   */
  lemma OnlyRangeLiftsBlocks(src: Sources, b: Blocks, long: bool, r: Regime)
    requires src.Valid() && 0.46 <= src.squash(1.0) <= 0.47 && src.confidence >= 0.9 && b.At(long) != 0
    ensures (exists inp :: Lifts(DEFAULTS, src, b, long, r, inp)) <==> r == Range
  {
    hide Lifts, Releasable;
    LiftsIffReleasable(DEFAULTS, src, b, long, r);
    DefaultGates(src, long, r, false);
    DefaultGates(src, long, r, true);
  }

  lemma DefaultGates(src: Sources, long: bool, r: Regime, wide: bool)
    requires src.Valid() && 0.46 <= src.squash(1.0) <= 0.47 && src.confidence >= 0.9
    ensures Releasable(DEFAULTS, src, long, Gate(r, wide)) <==> r == Range && !wide
  {
    hide Score, ConfidenceBound;
    var g := Gate(r, wide);
    if r == Range && !wide {
      DefaultResetScore(src);
      DefaultConfidence(src, ResetScore(DEFAULTS, src, g));
    }
  }

  lemma DefaultResetScore(src: Sources)
    requires 0.46 <= src.squash(1.0) <= 0.47
    ensures 0.5 <= ResetScore(DEFAULTS, src, Gate(Range, false)) <= 0.51
  {
  }

  lemma DefaultConfidence(src: Sources, v: real)
    requires src.confidence >= 0.9 && v >= 0.5
    ensures ConfidenceBound(src.confidence, v) > 0.4
  {
    MulMonotone(0.9, Min(src.confidence, 1.0), 0.55 + 0.45 * v);
  }

  // ---- When a blocked side is entered all the same ------------------------------------------------

  /** A question that has not released the block is answered with exposure on the blocked side. */
  ghost predicate Reenters(cfg: StrategyConfig, src: Sources, b: Blocks, long: bool, inp: Input) {
    && Plausible(cfg, src, inp) && b.At(long) != 0 && !Released(cfg, b.At(long), inp)
    && !On(long, inp.currentExposure) && On(long, Decided(cfg, b, inp).desiredExposure)
  }

  /** The bound of the trend sizes the classifier lets through in this regime. */
  function LargestTrend(cfg: StrategyConfig, r: Regime): real {
    if r == Trend then 1.0 else Min(1.0, Min(cfg.trendVeto, cfg.trendThreshold))
  }

  /** The bound of the basis scores. */
  function LargestBasis(cfg: StrategyConfig, src: Sources, g: Gate): real {
    if g.wide then src.ceiling else src.squash(cfg.dislocationZ)
  }

  predicate GateFits(cfg: StrategyConfig, g: Gate) {
    && Trades(g.regime) && (g.regime == Dislocation ==> g.wide) && (!g.wide ==> cfg.dislocationZ > 0.0)
    && if g.regime == Trend then cfg.trendThreshold <= 1.0 else cfg.trendThreshold > 0.0 && cfg.trendVeto > 0.0
  }

  /** The bound of the scores. */
  function LargestScore(cfg: StrategyConfig, src: Sources, g: Gate): real {
    Score(cfg, g.regime, LargestTrend(cfg, g.regime), LargestBasis(cfg, src, g))
  }

  /** Questions enter a side with some strength and a confidence of at least the floor. */
  predicate Attains(cfg: StrategyConfig, src: Sources, g: Gate, long: bool, floor: real) {
    && GateFits(cfg, g) && ReachesBeyond(cfg, long, LargestScore(cfg, src, g))
    && Confident(Trusted(src, g), LargestScore(cfg, src, g), floor, TopApproached(cfg, g))
  }

  /** The largest trend size is excluded, as the basis deviation of the largest basis score always is. */
  predicate TopTrendExcluded(cfg: StrategyConfig, r: Regime) {
    r != Trend && cfg.trendThreshold <= Min(1.0, cfg.trendVeto)
  }

  predicate TopApproached(cfg: StrategyConfig, g: Gate) {
    var w := WeightsFor(cfg, g.regime);
    w.basis != 0.0 || (w.trend != 0.0 && TopTrendExcluded(cfg, g.regime))
  }

  /** A negative cap of this side can be in force: an attainable confidence selects it with a positive strength. */
  ghost predicate NegativeCapInForce(cfg: StrategyConfig, src: Sources, long: bool) {
    exists g, high ::
      && CapOf(cfg, long, high) < 0.0 && Attains(cfg, src, g, long, FloorOf(cfg, long, high))
      && (!long && !high ==> EnoughConfidence(cfg) < cfg.highConfidence)
  }

  /** The cap of a side; a short has one for high confidence and one below. */
  function CapOf(cfg: StrategyConfig, long: bool, high: bool): real {
    if long then cfg.longCap else if high then cfg.highConfidenceShortCap else cfg.shortCap
  }

  /** The confidence from which on that cap is selected. */
  function FloorOf(cfg: StrategyConfig, long: bool, high: bool): real {
    if !long && high then Max(EnoughConfidence(cfg), cfg.highConfidence) else EnoughConfidence(cfg)
  }

  function SizeOf(cfg: StrategyConfig, long: bool, raw: real, confidence: real): real {
    if long then LongSize(cfg, raw, confidence) else ShortSize(cfg, raw, confidence)
  }

  /** Exposure on the blocked side can only come from the other side's entry, under a negative cap. */
  lemma ReentryIsReversed(cfg: StrategyConfig, b: Blocks, long: bool, inp: Input)
    requires b.At(long) != 0 && !Released(cfg, b.At(long), inp)
    requires !On(long, inp.currentExposure) && On(long, Decided(cfg, b, inp).desiredExposure)
    ensures Trades(inp.regime)
    ensures var raw := RawScore(cfg, inp);
      var c := Confidence(inp, raw);
      && c >= cfg.minimumConfidence && On(long, SizeOf(cfg, !long, raw, c))
      && (if long then raw <= -cfg.shortEntry && raw < cfg.longEntry else raw >= cfg.longEntry)
  {
    hide RawScore, Confidence, GrossLongEdge, GrossShortEdge, FundingBps, LongSize, ShortSize, ThesisEnded;
  }

  /** A size on the wrong side has a negative cap, a score beyond the threshold and some confidence. */
  lemma WrongSize(cfg: StrategyConfig, long: bool, raw: real, c: real)
    requires 0.0 <= c <= 1.0 && On(!long, SizeOf(cfg, long, raw, c))
    ensures CapOf(cfg, long, !long && c >= cfg.highConfidence) < 0.0 && c > 0.0
    ensures if long then raw > cfg.longEntry else -raw > cfg.shortEntry
  {
    var cap := CapOf(cfg, long, !long && c >= cfg.highConfidence);
    var s := if long then Normalize(raw, cfg.longEntry, 1.0) else Normalize(-raw, cfg.shortEntry, 1.0);
    NegativeProduct(cap, s, c);
  }

  lemma NegativeProduct(cap: real, s: real, c: real)
    requires s >= 0.0 && c >= 0.0
    ensures Times(Times(cap, s), c) < 0.0 <==> cap < 0.0 && s > 0.0 && c > 0.0
  {
    hide Times;
    SignOfTimes(cap, s);
    SignOfTimes(Times(cap, s), c);
  }

  lemma SignOfTimes(x: real, m: real)
    requires m >= 0.0
    ensures Times(x, m) < 0.0 <==> x < 0.0 && m > 0.0
    ensures x >= 0.0 ==> Times(x, m) >= 0.0
  {
    if x >= 0.0 {
      MulMonotone(0.0, x, m);
    } else if m > 0.0 {
      MulStrict(x, 0.0, m);
    }
  }

  lemma ReentryNeedsNegativeCap(cfg: StrategyConfig, src: Sources, b: Blocks, long: bool, inp: Input)
    requires src.Valid() && Reenters(cfg, src, b, long, inp)
    requires cfg.trendVeto > 0.0
    ensures NegativeCapInForce(cfg, src, !long)
  {
    hide RawScore, Score, Confidence, ConfidenceBound, LongSize, ShortSize, Decided;
    var f, g := inp.features, GateOf(cfg, inp);
    var raw, top := RawScore(cfg, inp), LargestScore(cfg, src, g);
    var c := Confidence(inp, raw);
    ReentryIsReversed(cfg, b, long, inp);
    WrongSize(cfg, !long, raw, c);
    BasisIsBelowTop(cfg, src, inp);
    ScoreIsBounded(cfg, inp, Abs(f.trendScore), Abs(f.basisScore));
    ScoreGrows(cfg, g.regime, Abs(f.trendScore), LargestTrend(cfg, g.regime), Abs(f.basisScore),
               LargestBasis(cfg, src, g));
    ConfidenceIsBounded(Trusted(src, g), inp, raw, top);
    var high := long && c >= cfg.highConfidence;
    assert CapOf(cfg, !long, high) < 0.0 && Attains(cfg, src, g, !long, FloorOf(cfg, !long, high));
  }

  lemma BasisIsBelowTop(cfg: StrategyConfig, src: Sources, inp: Input)
    requires src.Valid() && inp.features.basisScore == -src.squash(inp.features.basisZ)
    ensures Abs(inp.features.basisScore) < LargestBasis(cfg, src, GateOf(cfg, inp))
  {
    var z := Abs(inp.features.basisZ);
    SquashIsSigned(src, inp.features.basisZ, if z >= cfg.dislocationZ then z + 1.0 else cfg.dislocationZ);
  }

  // ---- A question that re-enters ------------------------------------------------------------------

  /** A trend and a basis deviation whose score passes every threshold that the bound of the scores passes. */
  lemma ScoreNearTop(cfg: StrategyConfig, src: Sources, g: Gate, long: bool, floor: real) returns (x: real, z: real)
    requires src.Valid() && cfg.trendVeto > 0.0 && floor >= 0.0 && Attains(cfg, src, g, long, floor)
    ensures 0.0 <= x <= 1.0 && z >= 0.0 && Admits(cfg, g, x, z)
    ensures var v := Score(cfg, g.regime, x, src.squash(z));
      v >= 0.0 && ReachesBeyond(cfg, long, v) && Confident(Trusted(src, g), v, floor, false)
  {
    hide Score, ConfidenceBound;
    if Confident(Trusted(src, g), LargestScore(cfg, src, g), floor, true) {
      x, z := ScoreBelowTop(cfg, src, g, long, floor);
    } else {
      x, z := ScoreAtTop(cfg, src, g);
    }
  }

  /** Where the largest score is not only approached, these sizes have it. */
  lemma ScoreAtTop(cfg: StrategyConfig, src: Sources, g: Gate) returns (x: real, z: real)
    requires src.Valid() && GateFits(cfg, g) && !TopApproached(cfg, g)
    ensures 0.0 <= x <= 1.0 && z >= 0.0 && Admits(cfg, g, x, z)
    ensures Score(cfg, g.regime, x, src.squash(z)) == LargestScore(cfg, src, g) >= 0.0
  {
    var big, far := LargestTrend(cfg, g.regime), LargestBasis(cfg, src, g);
    x := if TopTrendExcluded(cfg, g.regime) then 0.0 else big;
    z := if g.wide then Max(0.0, cfg.dislocationZ) else 0.0;
    SquashIsSigned(src, z, z + 1.0);
    SquashIsSigned(src, z, z);
    SquashIsSigned(src, cfg.dislocationZ, Abs(cfg.dislocationZ));
    if !g.wide {
      SquashIsSigned(src, 0.0, cfg.dislocationZ);
    }
    ScoreIsNonNegative(cfg, g.regime, big, far);
    ScoreGap(cfg, g.regime, x, big, src.squash(z), far);
    TimesZero(0.0);
    TimesGrows(0.0, 0.0, big - x);
    TimesGrows(0.0, 0.0, far - src.squash(z));
    hide Score;
  }

  lemma ScoreBelowTop(cfg: StrategyConfig, src: Sources, g: Gate, long: bool, floor: real) returns (x: real, z: real)
    requires src.Valid() && cfg.trendVeto > 0.0 && floor >= 0.0 && Attains(cfg, src, g, long, floor)
    requires Confident(Trusted(src, g), LargestScore(cfg, src, g), floor, true)
    ensures 0.0 <= x <= 1.0 && z >= 0.0 && Admits(cfg, g, x, z)
    ensures var v := Score(cfg, g.regime, x, src.squash(z));
      v >= 0.0 && ReachesBeyond(cfg, long, v) && Confident(Trusted(src, g), v, floor, true)
  {
    hide Score, ConfidenceBound, JustBelow, Times;
    var w, big, far := WeightsFor(cfg, g.regime), LargestTrend(cfg, g.regime), LargestBasis(cfg, src, g);
    var top := LargestScore(cfg, src, g);
    var slack := Room(cfg, Trusted(src, g), long, top, floor) / 2.0;
    SquashIsSigned(src, cfg.dislocationZ, Abs(cfg.dislocationZ));
    ScoreIsNonNegative(cfg, g.regime, big, far);
    BoundNeedsTrust(Trusted(src, g), top);
    x := if g.regime == Trend then 1.0 else JustBelow(Abs(w.trend), big, slack);
    JustBelowIsClose(Abs(w.trend), big, slack);
    TimesZero(Abs(w.trend));
    var level := JustBelow(Abs(w.basis), far, slack);
    JustBelowIsClose(Abs(w.basis), far, slack);
    if g.wide {
      z := DeviationAbove(src, level, cfg.dislocationZ);
    } else {
      z := DeviationBefore(src, level, cfg.dislocationZ);
    }
    var y := src.squash(z);
    ScoreIsNonNegative(cfg, g.regime, x, y);
    TimesGrows(Abs(w.basis), far - y, far - level);
    ScoreGap(cfg, g.regime, x, big, y, far);
    ScoreGrows(cfg, g.regime, x, big, y, far);
    WithinRoom(cfg, Trusted(src, g), long, top, floor, Score(cfg, g.regime, x, y));
  }

  /** A positive confidence from the floor on, below the bound and, for the lower short cap, below its limit. */
  function ChosenConfidence(floor: real, bound: real, limit: real): real {
    if floor > 0.0 then floor else Min(1.0, Min(bound, limit)) / 2.0
  }

  /** The question, asked one step before the cooldown of a block set at time 2 is over. */
  function Intruding(cfg: StrategyConfig, src: Sources, long: bool, r: Regime, x: real, z: real, q: real): Input {
    Leant(cfg, src, cfg.cooldown + 1, long, r, x, z, Reported(Max(0.0, Score(cfg, r, x, src.squash(z))), q))
  }

  lemma IntrudingReenters(
    cfg: StrategyConfig, src: Sources, long: bool, g: Gate, high: bool, x: real, z: real, q: real)
    requires src.Valid() && cfg.maximumEdgeShare >= 0.0
    requires Trades(g.regime) && 0.0 <= x <= 1.0 && z >= 0.0 && Admits(cfg, g, x, z)
    requires var v := Score(cfg, g.regime, x, src.squash(z));
      v >= 0.0 && ReachesBeyond(cfg, !long, v) && Confident(Trusted(src, g), v, q, false)
    requires 0.0 < q <= 1.0 && q >= cfg.minimumConfidence && CapOf(cfg, !long, high) < 0.0
    requires long ==> (high <==> q >= cfg.highConfidence)
    ensures Reenters(cfg, src, Blocks(0, 0).Set(long, 2), long, Intruding(cfg, src, !long, g.regime, x, z, q))
  {
    hide Score, ConfidenceBound, Confidence, RawScore, Reported, Leaning, Normalize, Times, AmpleEdge, Admits,
         Plausible;
    var r := g.regime;
    var v, inp := Score(cfg, r, x, src.squash(z)), Intruding(cfg, src, !long, r, x, z, q);
    var c := inp.fair.confidence;
    LeantScore(cfg, src, inp.now, !long, r, x, z, c);
    var raw := RawScore(cfg, inp);
    ReportedGives(Trusted(src, g), inp, raw, q);
    LeantIsPlausible(cfg, src, inp.now, !long, g, x, z, c);
    LeantPays(cfg, src, inp.now, !long, r, x, z, c, raw);
    StrengthIsPositive(v, if long then cfg.shortEntry else cfg.longEntry);
    NegativeProduct(CapOf(cfg, !long, high), Normalize(v, if long then cfg.shortEntry else cfg.longEntry, 1.0), q);
    IntrudingIsAnswered(cfg, Blocks(0, 0).Set(long, 2), long, inp);
  }

  lemma StrengthIsPositive(v: real, threshold: real)
    requires v > threshold
    ensures Normalize(v, threshold, 1.0) > 0.0
  {
    if threshold < 1.0 {
      var x := (v - threshold) / (1.0 - threshold);
      assert x * (1.0 - threshold) == v - threshold;
      if x <= 0.0 {
        MulMonotone(x, 0.0, 1.0 - threshold);
      }
    }
  }

  /** The edge of such a question covers every cost of its side. */
  lemma LeantPays(
    cfg: StrategyConfig, src: Sources, now: Time, long: bool, r: Regime, x: real, z: real, c: real, raw: real)
    requires cfg.maximumEdgeShare >= 0.0
    ensures var inp := Leant(cfg, src, now, long, r, x, z, c);
      && (long ==> GrossLongEdge(inp, raw) - inp.fair.uncertaintyBps >= cfg.minimumEdgeBps)
      && (!long ==> FundingFresh(cfg, inp) && FundingBps(cfg, inp) == 0.0
                    && GrossShortEdge(inp, raw) - cfg.shortBufferBps - inp.fair.uncertaintyBps >= cfg.minimumEdgeBps)
      && inp.currentExposure == 0.0
  {
    hide TrendEdge, Leaning;
    var inp := Leant(cfg, src, now, long, r, x, z, c);
    var e := AmpleEdge(cfg, src.uncertainty(c));
    assert (1.0 + e / 10000.0) / 1.0 == 1.0 + e / 10000.0;
    assert 0.0 * (cfg.holdingHours / 24.0) == 0.0;
  }

  /** Such a question is answered with the size of its side. */
  lemma IntrudingIsAnswered(cfg: StrategyConfig, b: Blocks, long: bool, inp: Input)
    requires b == Blocks(0, 0).Set(long, 2) && Trades(inp.regime) && inp.currentExposure == 0.0
    requires cfg.maximumEdgeShare >= 0.0
    requires var raw := RawScore(cfg, inp);
      && Confidence(inp, raw) >= cfg.minimumConfidence
      && (if long then raw <= -cfg.shortEntry && raw < cfg.longEntry else raw >= cfg.longEntry)
      && (!long ==> GrossLongEdge(inp, raw) - inp.fair.uncertaintyBps >= cfg.minimumEdgeBps)
      && (long ==> FundingFresh(cfg, inp) && FundingBps(cfg, inp) == 0.0
                   && GrossShortEdge(inp, raw) - cfg.shortBufferBps - inp.fair.uncertaintyBps >= cfg.minimumEdgeBps)
    ensures var raw := RawScore(cfg, inp);
      Decided(cfg, b, inp).desiredExposure == SizeOf(cfg, !long, raw, Confidence(inp, raw))
  {
    hide RawScore, Confidence, GrossLongEdge, GrossShortEdge, FundingBps, LongSize, ShortSize, FundingFresh;
    var raw := RawScore(cfg, inp);
    MulMonotone(0.0, cfg.maximumEdgeShare, Max(GrossShortEdge(inp, raw), 0.000001));
  }

  lemma NegativeCapReenters(cfg: StrategyConfig, src: Sources, long: bool)
    requires src.Valid() && cfg.maximumEdgeShare >= 0.0 && cfg.trendVeto > 0.0 && NegativeCapInForce(cfg, src, !long)
    ensures exists b, inp :: Reenters(cfg, src, b, long, inp)
  {
    hide Score, ConfidenceBound, Reenters, Intruding;
    var g, high :| CapOf(cfg, !long, high) < 0.0 && Attains(cfg, src, g, !long, FloorOf(cfg, !long, high))
                   && (long && !high ==> EnoughConfidence(cfg) < cfg.highConfidence);
    var floor := FloorOf(cfg, !long, high);
    var x, z := ScoreNearTop(cfg, src, g, !long, floor);
    var v := Score(cfg, g.regime, x, src.squash(z));
    if Trusted(src, g) <= 1.0 {
      BoundNeedsTrust(Trusted(src, g), v);
    }
    ConfidenceGrows(Trusted(src, g), v, v);
    var limit := if long && !high then cfg.highConfidence else 1.0;
    var q := ChosenConfidence(floor, ConfidenceBound(Trusted(src, g), v), limit);
    var h := long && q >= cfg.highConfidence;
    assert CapOf(cfg, !long, h) < 0.0;
    IntrudingReenters(cfg, src, long, g, h, x, z, q);
  }

  /**
   * Some unreleased question enters the blocked side if and only if a negative cap of the other side can be in force. A
   * veto and an edge share that validation requires are all that is assumed of the configuration.
   */
  lemma ReentersIffNegativeCap(cfg: StrategyConfig, src: Sources, long: bool)
    requires src.Valid() && cfg.maximumEdgeShare >= 0.0 && cfg.trendVeto > 0.0
    ensures (exists b, inp :: Reenters(cfg, src, b, long, inp)) <==> NegativeCapInForce(cfg, src, !long)
  {
    hide Reenters, NegativeCapInForce;
    if b, inp :| Reenters(cfg, src, b, long, inp) {
      ReentryNeedsNegativeCap(cfg, src, b, long, inp);
    }
    if NegativeCapInForce(cfg, src, !long) {
      NegativeCapReenters(cfg, src, long);
    }
  }

  /** With the default configuration but a negative long cap, a blocked short is entered. */
  lemma NegativeLongCapReenters(src: Sources)
    requires src.Valid() && src.confidence >= 0.9
    ensures exists b, inp :: Reenters(DEFAULTS.(longCap := -0.8), src, b, false, inp)
  {
    var cfg := DEFAULTS.(longCap := -0.8);
    var top := LargestScore(cfg, src, Gate(Trend, true));
    assert top >= 0.8;
    hide Score, ConfidenceBound;
    DefaultConfidence(src, top);
    assert CapOf(cfg, true, false) < 0.0 && Attains(cfg, src, Gate(Trend, true), true, FloorOf(cfg, true, false));
    ReentersIffNegativeCap(cfg, src, false);
  }

  // ---- No re-entry --------------------------------------------------------------------------------

  /** The caps keep the block shut: those of the other side are not negative, or no plausible question selects them. */
  ghost predicate CapsKeepShut(cfg: StrategyConfig, src: Sources, long: bool, inp: Input) {
    || cfg.CapsAreSized(!long)
    || (src.Valid() && cfg.trendVeto > 0.0 && Plausible(cfg, src, inp) && !NegativeCapInForce(cfg, src, !long))
  }

  lemma BlockedSignalStaysOff(cfg: StrategyConfig, src: Sources, b: Blocks, inp: Input, long: bool)
    requires CapsKeepShut(cfg, src, long, inp)
    requires b.At(long) != 0 && !Released(cfg, b.At(long), inp) && !On(long, inp.currentExposure)
    ensures !On(long, Decided(cfg, b, inp).desiredExposure)
  {
    hide Decided, Plausible, NegativeCapInForce, Released, RawScore, Confidence, LongSize, ShortSize;
    if !cfg.CapsAreSized(!long) {
      WithoutNegativeCap(cfg, src, b, long, inp);
    } else if On(long, Decided(cfg, b, inp).desiredExposure) {
      ReentryIsReversed(cfg, b, long, inp);
      WrongSize(cfg, !long, RawScore(cfg, inp), Confidence(inp, RawScore(cfg, inp)));
    }
  }

  lemma WithoutNegativeCap(cfg: StrategyConfig, src: Sources, b: Blocks, long: bool, inp: Input)
    requires src.Valid() && cfg.trendVeto > 0.0 && !NegativeCapInForce(cfg, src, !long)
    ensures !Reenters(cfg, src, b, long, inp)
  {
    hide Reenters, NegativeCapInForce;
    if Reenters(cfg, src, b, long, inp) {
      ReentryNeedsNegativeCap(cfg, src, b, long, inp);
    }
  }

  /**
   * No re-entry after a stop-out: until one question satisfies both the cooldown and the thesis reset, a flat or
   * opposite position is never answered with exposure in the stopped direction, unless a negative cap is in force.
   */
  lemma NoReentryBeforeRelease(
    cfg: StrategyConfig, src: Sources, b: Blocks, es: seq<Event>, inp: Input, long: bool)
    requires CapsKeepShut(cfg, src, long, inp) && b.At(long) != 0
    requires NeverReleased(cfg, b, es + [Asked(inp)], long)
    requires !On(long, inp.currentExposure)
    ensures !On(long, Decided(cfg, After(cfg, b, es), inp).desiredExposure)
  {
    hide Decided, Released, CapsKeepShut;
    var all := es + [Asked(inp)];
    forall k | 0 <= k < |es| ensures all[..k] == es[..k] && all[k] == es[k] {}
    assert NeverReleased(cfg, b, es, long);
    assert all[..|es|] == es && all[|es|] == Asked(inp);
    BlockPersists(cfg, b, es, long);
    BlockedSignalStaysOff(cfg, src, After(cfg, b, es), inp, long);
  }

  // ---- Regimes that lift nothing ------------------------------------------------------------------

  /** Some question of this regime can lift a block of this side. */
  predicate Liftable(cfg: StrategyConfig, src: Sources, long: bool, r: Regime) {
    Releasable(cfg, src, long, Gate(r, false)) || Releasable(cfg, src, long, Gate(r, true))
  }

  /** A stop-out, or a plausible question of a regime that lifts nothing. */
  predicate LiftsNothing(cfg: StrategyConfig, src: Sources, long: bool, e: Event) {
    match e
    case Stopped(_, at) => at != 0
    case Asked(inp) => Plausible(cfg, src, inp) && !Liftable(cfg, src, long, inp.regime)
  }

  lemma EventKeepsBlock(cfg: StrategyConfig, src: Sources, b: Blocks, e: Event, long: bool)
    requires src.Valid() && b.At(long) != 0 && LiftsNothing(cfg, src, long, e)
    ensures Next(cfg, b, e).At(long) != 0
  {
    hide BlocksAfter, Plausible, Releasable;
    if e.Asked? && BlocksAfter(cfg, b, e.inp).At(long) == 0 {
      assert Lifts(cfg, src, b, long, e.inp.regime, e.inp);
      LiftsIffReleasable(cfg, src, b, long, e.inp.regime);
    }
  }

  lemma {:induction false} BlockOutlasts(cfg: StrategyConfig, src: Sources, b: Blocks, es: seq<Event>, long: bool)
    requires src.Valid() && b.At(long) != 0 && forall e :: e in es ==> LiftsNothing(cfg, src, long, e)
    ensures After(cfg, b, es).At(long) != 0
  {
    hide LiftsNothing, Next;
    if es != [] {
      BlockOutlasts(cfg, src, b, es[..|es| - 1], long);
      EventKeepsBlock(cfg, src, After(cfg, b, es[..|es| - 1]), es[|es| - 1], long);
    }
  }

  /** A question that leaves the block in place is not answered with exposure on its side. */
  lemma KeptBlockStaysOff(cfg: StrategyConfig, b: Blocks, inp: Input, long: bool)
    requires cfg.CapsAreSized(!long) && b.At(long) != 0 && BlocksAfter(cfg, b, inp).At(long) != 0
    requires !On(long, inp.currentExposure)
    ensures !On(long, Decided(cfg, b, inp).desiredExposure)
  {
    var raw := RawScore(cfg, inp);
    SizesAreCapped(cfg, raw, Confidence(inp, raw));
    hide RawScore, Confidence, GrossLongEdge, GrossShortEdge, FundingBps, LongSize, ShortSize, ThesisEnded, Released;
  }

  /**
   * No re-entry without a regime that can lift the block: however long ago the stop-out is and whatever the thesis, a
   * flat or opposite position is never answered with exposure in the stopped direction.
   */
  lemma NoReentryWithoutLiftable(
    cfg: StrategyConfig, src: Sources, b: Blocks, es: seq<Event>, inp: Input, long: bool)
    requires src.Valid() && cfg.CapsAreSized(!long) && b.At(long) != 0 && !On(long, inp.currentExposure)
    requires forall e :: e in es + [Asked(inp)] ==> LiftsNothing(cfg, src, long, e)
    ensures !On(long, Decided(cfg, After(cfg, b, es), inp).desiredExposure)
  {
    hide LiftsNothing, Decided, BlocksAfter;
    BlockOutlasts(cfg, src, b, es, long);
    assert Asked(inp) in es + [Asked(inp)];
    EventKeepsBlock(cfg, src, After(cfg, b, es), Asked(inp), long);
    KeptBlockStaysOff(cfg, After(cfg, b, es), inp, long);
  }

  /** Under the defaults that is every regime but the range. */
  lemma OnlyRangeIsLiftable(src: Sources, long: bool, r: Regime)
    requires src.Valid() && 0.46 <= src.squash(1.0) <= 0.47 && src.confidence >= 0.9
    ensures Liftable(DEFAULTS, src, long, r) <==> r == Range
  {
    hide Releasable;
    DefaultGates(src, long, r, false);
    DefaultGates(src, long, r, true);
  }
}
