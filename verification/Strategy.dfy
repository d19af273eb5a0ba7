/** The strategy's signed exposure, and the block that keeps a stopped direction out of the market. */
module Strategy {
  import opened Numbers
  import opened Domain

  datatype Weights = Weights(trend: real, basis: real, micro: real)

  datatype StrategyConfig = StrategyConfig(
    trendWeights: Weights, rangeWeights: Weights, dislocationWeights: Weights,
    longEntry: real, shortEntry: real, trendExit: real, meanReversionExitZ: real,
    longCap: real, shortCap: real, highConfidenceShortCap: real, highConfidence: real, minimumConfidence: real,
    minimumEdgeBps: real, shortBufferBps: real, resetBasisZ: real, resetTrend: real, cooldown: Duration,
    fallbackRate: real, holdingHours: real, maximumEdgeShare: real, fundingMaxAge: Duration,
    trendThreshold: real, dislocationZ: real, trendVeto: real)
  {
    /** The caps of one side are not negative, so an entry on that side really is on that side. */
    predicate CapsAreSized(long: bool) {
      if long then longCap >= 0.0 else shortCap >= 0.0 && highConfidenceShortCap >= 0.0
    }
  }

  /** The values a configuration file may leave out. */
  const DEFAULTS := StrategyConfig(
    Weights(0.65, 0.20, 0.15), Weights(0.15, 0.70, 0.15), Weights(0.10, 0.80, 0.10), 0.38, 0.48, 0.15, 0.55, 0.80, 0.60,
    0.80, 0.90, 0.40, 8.0, 4.0, 1.0, 0.20, 20 * MINUTE, 0.0003, 8.0, 0.20, 10 * MINUTE, 0.45, 2.1, 0.32)

  datatype Features = Features(basisZ: real, basisScore: real, trendScore: real, microScore: real, volatility: real)

  datatype Input = Input(
    now: Time, regime: Regime, features: Features, fair: FairValue, direct: Book, funding: FundingRate,
    currentExposure: real)

  /** When each direction was stopped out; 0 means it is not blocked. */
  datatype Blocks = Blocks(longAt: Time, shortAt: Time) {
    function At(long: bool): Time {
      if long then longAt else shortAt
    }

    function Set(long: bool, at: Time): Blocks {
      if long then this.(longAt := at) else this.(shortAt := at)
    }
  }

  // ---- Scores -------------------------------------------------------------------------------------

  function WeightsFor(cfg: StrategyConfig, r: Regime): Weights {
    match r
    case Trend => cfg.trendWeights
    case Dislocation => cfg.dislocationWeights
    case _ => cfg.rangeWeights
  }

  function RawScore(cfg: StrategyConfig, inp: Input): real {
    var w := WeightsFor(cfg, inp.regime);
    Times(w.trend, inp.features.trendScore) + Times(w.basis, inp.features.basisScore)
    + Times(w.micro, inp.features.microScore)
  }

  function Confidence(inp: Input, raw: real): (c: real)
    ensures 0.0 <= c <= 1.0
  {
    Clamp(Times(inp.fair.confidence, 0.55 + 0.45 * Abs(raw)), 0.0, 1.0)
  }

  function Normalize(v: real, threshold: real, max: real): (r: real)
    ensures 0.0 <= r <= 1.0
  {
    if v <= threshold then 0.0
    else if max <= threshold then 1.0
    else Clamp((v - threshold) / (max - threshold), 0.0, 1.0)
  }

  function LongEdge(inp: Input): real {
    if inp.direct.Valid() && inp.fair.valid && inp.fair.bid > inp.direct.ask
    then (inp.fair.bid / inp.direct.ask - 1.0) * 10000.0 else 0.0
  }

  function ShortEdge(inp: Input): real {
    if inp.direct.Valid() && inp.fair.valid && inp.direct.bid > inp.fair.ask
    then (inp.direct.bid / inp.fair.ask - 1.0) * 10000.0 else 0.0
  }

  function TrendEdge(inp: Input): real {
    Abs(inp.features.trendScore) * Max(inp.features.volatility, 0.0001) * 10000.0 * 1.5
  }

  predicate FundingFresh(cfg: StrategyConfig, inp: Input) {
    inp.funding.valid && inp.now - inp.funding.updatedAt <= cfg.fundingMaxAge
  }

  function FundingBps(cfg: StrategyConfig, inp: Input): real {
    (if FundingFresh(cfg, inp) then Max(0.0, inp.funding.dailyRate) else cfg.fallbackRate)
    * (cfg.holdingHours / 24.0) * 10000.0
  }

  function GrossLongEdge(inp: Input, raw: real): real {
    if inp.regime == Trend && raw > 0.0 then Max(LongEdge(inp), TrendEdge(inp)) else LongEdge(inp)
  }

  function GrossShortEdge(inp: Input, raw: real): real {
    if inp.regime == Trend && raw < 0.0 then Max(ShortEdge(inp), TrendEdge(inp)) else ShortEdge(inp)
  }

  // ---- The block ----------------------------------------------------------------------------------

  function Marked(b: Blocks, direction: real, now: Time): Blocks {
    if direction > 0.0 then b.Set(true, now) else if direction < 0.0 then b.Set(false, now) else b
  }

  /** Both the cooldown has passed and the thesis has reset. */
  predicate Released(cfg: StrategyConfig, at: Time, inp: Input) {
    inp.now - at >= cfg.cooldown
    && Abs(inp.features.basisZ) <= cfg.resetBasisZ && Abs(inp.features.trendScore) <= cfg.resetTrend
  }

  predicate Blocked(cfg: StrategyConfig, b: Blocks, long: bool, inp: Input) {
    b.At(long) != 0 && !Released(cfg, b.At(long), inp)
  }

  function Rechecked(cfg: StrategyConfig, b: Blocks, long: bool, inp: Input): Blocks {
    if b.At(long) != 0 && Released(cfg, b.At(long), inp) then b.Set(long, 0) else b
  }

  // ---- The signal ---------------------------------------------------------------------------------

  predicate ThesisEnded(cfg: StrategyConfig, inp: Input) {
    var f := inp.features;
    && inp.currentExposure != 0.0
    && (((inp.regime == Range || inp.regime == Dislocation) && Abs(f.basisZ) <= cfg.meanReversionExitZ)
        || (inp.regime == Trend
            && (if inp.currentExposure > 0.0 then f.trendScore <= cfg.trendExit else f.trendScore >= -cfg.trendExit)))
  }

  /** Which branch of the decision applies. */
  datatype Branch = Hold(noEntries: bool) | Exit | EnterLong | EnterShort

  function BranchOf(cfg: StrategyConfig, inp: Input): Branch {
    var raw := RawScore(cfg, inp);
    if inp.regime == NoTrade || inp.regime == Transition then Hold(true)
    else if ThesisEnded(cfg, inp) then Exit
    else if Confidence(inp, raw) < cfg.minimumConfidence then Hold(true)
    else if raw >= cfg.longEntry then EnterLong
    else if raw <= -cfg.shortEntry then EnterShort
    else Hold(false)
  }

  function LongSize(cfg: StrategyConfig, raw: real, confidence: real): real {
    Times(Times(cfg.longCap, Normalize(raw, cfg.longEntry, 1.0)), confidence)
  }

  function ShortCap(cfg: StrategyConfig, confidence: real): real {
    if confidence >= cfg.highConfidence then cfg.highConfidenceShortCap else cfg.shortCap
  }

  function ShortSize(cfg: StrategyConfig, raw: real, confidence: real): real {
    -Times(Times(ShortCap(cfg, confidence), Normalize(-raw, cfg.shortEntry, 1.0)), confidence)
  }

  const STAND_ASIDE := Signal(0.0, true)
  const FLATTEN := Signal(0.0, false)

  function LongSignal(cfg: StrategyConfig, inp: Input, raw: real): Signal {
    if GrossLongEdge(inp, raw) - inp.fair.uncertaintyBps < cfg.minimumEdgeBps then FLATTEN
    else Signal(LongSize(cfg, raw, Confidence(inp, raw)), false)
  }

  function ShortSignal(cfg: StrategyConfig, inp: Input, raw: real): Signal {
    var edge, funding := GrossShortEdge(inp, raw), FundingBps(cfg, inp);
    if !FundingFresh(cfg, inp) then STAND_ASIDE
    else if funding > Max(edge, 0.000001) * cfg.maximumEdgeShare then FLATTEN
    else if edge - funding - cfg.shortBufferBps - inp.fair.uncertaintyBps < cfg.minimumEdgeBps then FLATTEN
    else Signal(ShortSize(cfg, raw, Confidence(inp, raw)), false)
  }

  function Decided(cfg: StrategyConfig, b: Blocks, inp: Input): Signal {
    var raw := RawScore(cfg, inp);
    match BranchOf(cfg, inp)
    case Hold(noEntries) => Signal(inp.currentExposure, noEntries)
    case Exit => FLATTEN
    case EnterLong => if Blocked(cfg, b, true, inp) then STAND_ASIDE else LongSignal(cfg, inp, raw)
    case EnterShort => if Blocked(cfg, b, false, inp) then STAND_ASIDE else ShortSignal(cfg, inp, raw)
  }

  /** What is reported beside a signal: score, confidence and, of an entry taken, the edge after and before costs. */
  datatype Figures = Figures(score: real, confidence: real, edgeBps: real, move: real)

  /** The edge left of an entry once its costs are paid. */
  function NetEdge(cfg: StrategyConfig, inp: Input, raw: real, long: bool): real {
    if long then GrossLongEdge(inp, raw) - inp.fair.uncertaintyBps
    else GrossShortEdge(inp, raw) - FundingBps(cfg, inp) - cfg.shortBufferBps - inp.fair.uncertaintyBps
  }

  /** An entry goes ahead: not blocked, funding known and bearable for a short, and an edge worth its costs. */
  predicate Taken(cfg: StrategyConfig, b: Blocks, inp: Input, long: bool) {
    var raw := RawScore(cfg, inp);
    && BranchOf(cfg, inp) == (if long then EnterLong else EnterShort)
    && !Blocked(cfg, b, long, inp)
    && (!long ==> FundingFresh(cfg, inp)
                  && FundingBps(cfg, inp) <= Max(GrossShortEdge(inp, raw), 0.000001) * cfg.maximumEdgeShare)
    && NetEdge(cfg, inp, raw, long) >= cfg.minimumEdgeBps
  }

  function FiguresOf(cfg: StrategyConfig, b: Blocks, inp: Input): Figures {
    var raw := RawScore(cfg, inp);
    var plain := Figures(raw, Confidence(inp, raw), 0.0, 0.0);
    if inp.regime == NoTrade || inp.regime == Transition then Figures(0.0, inp.fair.confidence, 0.0, 0.0)
    else if Taken(cfg, b, inp, true) then
      plain.(edgeBps := NetEdge(cfg, inp, raw, true), move := GrossLongEdge(inp, raw) / 10000.0)
    else if Taken(cfg, b, inp, false) then
      plain.(edgeBps := NetEdge(cfg, inp, raw, false), move := GrossShortEdge(inp, raw) / 10000.0)
    else plain
  }

  function BlocksAfter(cfg: StrategyConfig, b: Blocks, inp: Input): Blocks {
    match BranchOf(cfg, inp)
    case EnterLong => Rechecked(cfg, b, true, inp)
    case EnterShort => Rechecked(cfg, b, false, inp)
    case _ => b
  }

  class Engine {
    const cfg: StrategyConfig
    var blocks: Blocks

    constructor (cfg: StrategyConfig)
      ensures this.cfg == cfg && blocks == Blocks(0, 0)
    {
      this.cfg := cfg;
      blocks := Blocks(0, 0);
    }

    method MarkStopped(direction: real, now: Time)
      modifies this
      ensures blocks == Marked(old(blocks), direction, now)
    {
      if direction > 0.0 {
        blocks := blocks.(longAt := now);
      } else if direction < 0.0 {
        blocks := blocks.(shortAt := now);
      }
    }

    method ReentryBlocked(long: bool, inp: Input) returns (blocked: bool)
      modifies this
      ensures blocked == Blocked(cfg, old(blocks), long, inp)
      ensures blocks == Rechecked(cfg, old(blocks), long, inp)
    {
      var at := if long then blocks.longAt else blocks.shortAt;
      if at == 0 {
        return false;
      }
      if inp.now - at < cfg.cooldown {
        return true;
      }
      if Abs(inp.features.basisZ) <= cfg.resetBasisZ && Abs(inp.features.trendScore) <= cfg.resetTrend {
        if long {
          blocks := blocks.(longAt := 0);
        } else {
          blocks := blocks.(shortAt := 0);
        }
        return false;
      }
      return true;
    }

    method Ask(inp: Input) returns (s: Signal, f: Figures)
      modifies this
      ensures s == Decided(cfg, old(blocks), inp) && f == FiguresOf(cfg, old(blocks), inp)
      ensures blocks == BlocksAfter(cfg, old(blocks), inp)
    {
      hide RawScore, Confidence, GrossLongEdge, GrossShortEdge, FundingBps, LongSize, ShortSize, Blocked, Rechecked;
      if inp.regime == NoTrade || inp.regime == Transition {
        return Signal(inp.currentExposure, true), Figures(0.0, inp.fair.confidence, 0.0, 0.0);
      }
      var raw := RawScore(cfg, inp);
      var confidence := Confidence(inp, raw);
      s, f := Signal(0.0, false), Figures(raw, confidence, 0.0, 0.0);
      if inp.currentExposure > 0.0 {
        if (inp.regime == Range || inp.regime == Dislocation) && Abs(inp.features.basisZ) <= cfg.meanReversionExitZ {
          return;
        }
        if inp.regime == Trend && inp.features.trendScore <= cfg.trendExit {
          return;
        }
      }
      if inp.currentExposure < 0.0 {
        if (inp.regime == Range || inp.regime == Dislocation) && Abs(inp.features.basisZ) <= cfg.meanReversionExitZ {
          return;
        }
        if inp.regime == Trend && inp.features.trendScore >= -cfg.trendExit {
          return;
        }
      }
      if confidence < cfg.minimumConfidence {
        return s.(desiredExposure := inp.currentExposure, noNewEntries := true), f;
      }
      var longEdge := GrossLongEdge(inp, raw);
      var longNetEdge := longEdge - inp.fair.uncertaintyBps;
      var shortEdge, fundingBps := GrossShortEdge(inp, raw), FundingBps(cfg, inp);
      var shortNetEdge := shortEdge - fundingBps - cfg.shortBufferBps - inp.fair.uncertaintyBps;
      if raw >= cfg.longEntry {
        var blocked := ReentryBlocked(true, inp);
        if blocked {
          return s.(noNewEntries := true), f;
        }
        if longNetEdge < cfg.minimumEdgeBps {
          return;
        }
        return s.(desiredExposure := LongSize(cfg, raw, confidence)),
               f.(edgeBps := longNetEdge, move := longEdge / 10000.0);
      }
      if raw <= -cfg.shortEntry {
        var blocked := ReentryBlocked(false, inp);
        if blocked {
          return s.(noNewEntries := true), f;
        }
        if !inp.funding.valid || inp.now - inp.funding.updatedAt > cfg.fundingMaxAge {
          return s.(noNewEntries := true), f;
        }
        if fundingBps > Max(shortEdge, 0.000001) * cfg.maximumEdgeShare {
          return;
        }
        if shortNetEdge < cfg.minimumEdgeBps {
          return;
        }
        return s.(desiredExposure := ShortSize(cfg, raw, confidence)),
               f.(edgeBps := shortNetEdge, move := shortEdge / 10000.0);
      }
      if inp.currentExposure != 0.0 {
        return s.(desiredExposure := inp.currentExposure), f;
      }
    }
  }

  // ---- Runs ---------------------------------------------------------------------------------------

  datatype Event = Stopped(direction: real, at: Time) | Asked(inp: Input)

  function Next(cfg: StrategyConfig, b: Blocks, e: Event): Blocks {
    match e
    case Stopped(direction, at) => Marked(b, direction, at)
    case Asked(inp) => BlocksAfter(cfg, b, inp)
  }

  function After(cfg: StrategyConfig, b: Blocks, es: seq<Event>): Blocks {
    if es == [] then b else Next(cfg, After(cfg, b, es[..|es| - 1]), es[|es| - 1])
  }

  /** No question asked so far satisfied both the cooldown and the thesis reset of this side's block. */
  ghost predicate NeverReleased(cfg: StrategyConfig, b: Blocks, es: seq<Event>, long: bool) {
    forall k :: 0 <= k < |es| ==>
      match es[k]
      case Asked(inp) => !Released(cfg, After(cfg, b, es[..k]).At(long), inp)
      case Stopped(_, at) => at != 0
  }

  /** What lies between zero and a cap, whatever the cap's sign. */
  predicate Between(x: real, cap: real) {
    Min(0.0, cap) <= x <= Max(0.0, cap)
  }

  lemma PartOf(x: real, t: real, cap: real)
    requires Between(x, cap) && 0.0 <= t <= 1.0
    ensures Between(Times(x, t), cap)
  {
    hide Times;
    if x >= 0.0 {
      FractionOf(x, t);
    } else {
      FractionOf(-x, t);
      NegatedTimes(x, t);
    }
  }

  lemma SizesAreCapped(cfg: StrategyConfig, raw: real, confidence: real)
    requires 0.0 <= confidence <= 1.0
    ensures Between(LongSize(cfg, raw, confidence), cfg.longCap)
    ensures Between(ShortSize(cfg, raw, confidence), -ShortCap(cfg, confidence))
  {
    hide Normalize, Times;
    var s, t := Normalize(raw, cfg.longEntry, 1.0), Normalize(-raw, cfg.shortEntry, 1.0);
    var cap := ShortCap(cfg, confidence);
    PartOf(cfg.longCap, s, cfg.longCap);
    PartOf(Times(cfg.longCap, s), confidence, cfg.longCap);
    PartOf(cap, t, cap);
    PartOf(Times(cap, t), confidence, cap);
  }

  /** A flat account is answered with nothing or with at most the cap of the side entered, on that cap's side. */
  lemma NewExposureIsCapped(cfg: StrategyConfig, b: Blocks, inp: Input)
    requires inp.currentExposure == 0.0
    ensures var x := Decided(cfg, b, inp).desiredExposure;
      match BranchOf(cfg, inp)
      case EnterLong => Between(x, cfg.longCap)
      case EnterShort => Between(x, -ShortCap(cfg, Confidence(inp, RawScore(cfg, inp))))
      case _ => x == 0.0
  {
    var raw := RawScore(cfg, inp);
    SizesAreCapped(cfg, raw, Confidence(inp, raw));
    hide RawScore, Confidence, GrossLongEdge, GrossShortEdge, FundingBps, LongSize, ShortSize, Blocked, ShortCap;
  }

  /**
   * A flat account is given exposure only by an entry that is worth its costs: the reported edge is at least the
   * minimum, and it is the reported move less the uncertainty and, for a short, the buffer and a known funding.
   */
  lemma ExposureIsPaidFor(cfg: StrategyConfig, b: Blocks, inp: Input)
    requires inp.currentExposure == 0.0 && Decided(cfg, b, inp).desiredExposure != 0.0
    ensures Taken(cfg, b, inp, true) || (Taken(cfg, b, inp, false) && FundingFresh(cfg, inp))
    ensures var f := FiguresOf(cfg, b, inp);
      var cost := inp.fair.uncertaintyBps
                  + if Taken(cfg, b, inp, true) then 0.0 else cfg.shortBufferBps + FundingBps(cfg, inp);
      cfg.minimumEdgeBps <= f.edgeBps == f.move * 10000.0 - cost
  {
    hide RawScore, Confidence, GrossLongEdge, GrossShortEdge, LongSize, ShortSize, Blocked, FundingBps, FundingFresh;
  }

  /** A stronger score or a higher confidence under the same cap never shrinks an entry. */
  lemma StrongerScoreNeverShrinks(cfg: StrategyConfig, weak: real, strong: real, low: real, high: real)
    requires weak <= strong && 0.0 <= low <= high <= 1.0
    ensures Abs(LongSize(cfg, weak, low)) <= Abs(LongSize(cfg, strong, high))
    ensures ShortCap(cfg, low) == ShortCap(cfg, high) ==>
              Abs(ShortSize(cfg, -weak, low)) <= Abs(ShortSize(cfg, -strong, high))
  {
    hide Times, Normalize, ShortCap;
    var cap := ShortCap(cfg, high);
    NormalizeGrows(weak, strong, cfg.longEntry, 1.0);
    NormalizeGrows(weak, strong, cfg.shortEntry, 1.0);
    SizeGrows(cfg.longCap, Normalize(weak, cfg.longEntry, 1.0), Normalize(strong, cfg.longEntry, 1.0), low, high);
    SizeGrows(cap, Normalize(weak, cfg.shortEntry, 1.0), Normalize(strong, cfg.shortEntry, 1.0), low, high);
  }

  lemma NormalizeGrows(v: real, w: real, threshold: real, max: real)
    requires v <= w
    ensures Normalize(v, threshold, max) <= Normalize(w, threshold, max)
  {
    if threshold < max {
      DivMonotone(v - threshold, w - threshold, max - threshold);
    }
  }

  lemma SizeGrows(cap: real, s: real, t: real, low: real, high: real)
    requires 0.0 <= s <= t && 0.0 <= low <= high
    ensures Abs(Times(Times(cap, s), low)) <= Abs(Times(Times(cap, t), high))
  {
    hide Times;
    if cap >= 0.0 {
      PositiveSizeGrows(cap, s, t, low, high);
    } else {
      PositiveSizeGrows(-cap, s, t, low, high);
      NegatedSize(cap, s, low);
      NegatedSize(cap, t, high);
    }
  }

  lemma NegatedSize(cap: real, s: real, c: real)
    ensures Times(Times(-cap, s), c) == -Times(Times(cap, s), c)
  {
    Negate(cap, s);
    Negate(cap * s, c);
  }

  lemma PositiveSizeGrows(cap: real, s: real, t: real, low: real, high: real)
    requires cap >= 0.0 && 0.0 <= s <= t && 0.0 <= low <= high
    ensures 0.0 <= Times(Times(cap, s), low) <= Times(Times(cap, t), high)
  {
    hide Times;
    GrowsBoth(0.0, s, cap, cap);
    GrowsBoth(s, t, cap, cap);
    GrowsBoth(Times(cap, s), Times(cap, t), low, high);
  }

  lemma GrowsBoth(x: real, y: real, m: real, n: real)
    requires x <= y && 0.0 <= m <= n && (x >= 0.0 || m == n)
    ensures Times(m, x) <= Times(n, y) && Times(x, m) <= Times(y, n)
    ensures x >= 0.0 ==> Times(m, x) >= 0.0 && Times(x, m) >= 0.0
  {
    hide Times;
    TimesCommutes(m, x);
    TimesCommutes(m, y);
    TimesCommutes(n, y);
    TimesMonotone(x, y, m);
    if y >= 0.0 {
      TimesMonotone(m, n, y);
    }
    if x >= 0.0 {
      TimesCommutes(0.0, m);
      TimesMonotone(0.0, x, m);
    }
  }

  /** Exposure on a side. */
  predicate On(long: bool, exposure: real) {
    if long then exposure > 0.0 else exposure < 0.0
  }

  /** A block survives everything but a releasing question. */
  lemma {:induction false} BlockPersists(cfg: StrategyConfig, b: Blocks, es: seq<Event>, long: bool)
    requires b.At(long) != 0 && NeverReleased(cfg, b, es, long)
    ensures After(cfg, b, es).At(long) != 0
  {
    hide Released, BranchOf;
    if es != [] {
      var front := es[..|es| - 1];
      forall k | 0 <= k < |front| ensures front[..k] == es[..k] && front[k] == es[k] {}
      assert NeverReleased(cfg, b, front, long);
      BlockPersists(cfg, b, front, long);
      assert es[..|front|] == front;
    }
  }
}
