/** What the strategy answers, and what an entry is worth, in terms of the books, the features and the configuration. */
module SignalTerms {
  import opened Numbers
  import opened Domain
  import opened Strategy

  /** How much more the one side pays than the other asks, as a fraction; nothing if it does not, or without both. */
  function Gain(usable: bool, bid: real, ask: real): real
    requires usable ==> ask > 0.0
  {
    if usable && bid > ask then bid / ask - 1.0 else 0.0
  }

  /** The move a trend of this strength promises at this volatility. */
  function TrendMove(inp: Input): real {
    1.5 * (Abs(inp.features.trendScore) * Max(inp.features.volatility, 0.0001))
  }

  predicate BooksUsable(inp: Input) {
    inp.direct.Valid() && inp.fair.valid
  }

  /**
   * The move an entry is taken for: buying at the direct ask what is worth the fair bid, or selling at the direct bid
   * what costs the fair ask; with the trend, the trend's own move if that is larger.
   */
  function MoveFor(inp: Input, raw: real, long: bool): real {
    var usable := BooksUsable(inp);
    var gain := if long then Gain(usable, inp.fair.bid, inp.direct.ask) else Gain(usable, inp.direct.bid, inp.fair.ask);
    if inp.regime == Trend && (if long then raw > 0.0 else raw < 0.0) then Max(gain, TrendMove(inp)) else gain
  }

  lemma EdgeIsMove(inp: Input, raw: real)
    ensures GrossLongEdge(inp, raw) == MoveFor(inp, raw, true) * 10000.0
    ensures GrossShortEdge(inp, raw) == MoveFor(inp, raw, false) * 10000.0
  {
    var x, v := Abs(inp.features.trendScore), Max(inp.features.volatility, 0.0001);
    assert x * v * 10000.0 * 1.5 == 1.5 * (x * v) * 10000.0;
  }

  /** The books alone pay for a cost, which is a fraction of the price. */
  predicate BooksPay(inp: Input, long: bool, cost: real) {
    BooksUsable(inp) && if long then inp.fair.bid >= Times(inp.direct.ask, 1.0 + cost)
                        else inp.direct.bid >= Times(inp.fair.ask, 1.0 + cost)
  }

  lemma GainPays(bid: real, ask: real, cost: real)
    requires ask > 0.0 && cost > 0.0
    ensures Gain(true, bid, ask) >= cost <==> bid >= Times(ask, 1.0 + cost)
  {
    var q := bid / ask;
    assert q * ask == bid;
    if q >= 1.0 + cost {
      MulMonotone(1.0 + cost, q, ask);
    } else {
      MulStrict(q, 1.0 + cost, ask);
    }
    MulStrict(1.0, 1.0 + cost, ask);
    if bid <= ask && q > 1.0 {
      MulStrict(1.0, q, ask);
    }
  }

  /** A move covers a positive cost exactly if the books pay for it or, with the trend, the trend does. */
  lemma MovePays(inp: Input, raw: real, long: bool, cost: real)
    requires cost > 0.0
    ensures MoveFor(inp, raw, long) >= cost <==>
      BooksPay(inp, long, cost)
      || (inp.regime == Trend && (if long then raw > 0.0 else raw < 0.0) && TrendMove(inp) >= cost)
  {
    hide TrendMove;
    if BooksUsable(inp) {
      GainPays(inp.fair.bid, inp.direct.ask, cost);
      GainPays(inp.direct.bid, inp.fair.ask, cost);
    }
  }

  /** Funding for the expected holding time, as a fraction: the known rate, but never a credit. */
  function FundingCost(cfg: StrategyConfig, inp: Input): real {
    Times(Max(0.0, inp.funding.dailyRate), cfg.holdingHours / 24.0)
  }

  predicate FundingKnown(cfg: StrategyConfig, inp: Input) {
    inp.funding.valid && inp.now - inp.funding.updatedAt <= cfg.fundingMaxAge
  }

  /** Everything an entry has to earn, as a fraction of the price. */
  function EntryCost(cfg: StrategyConfig, inp: Input, long: bool): real {
    (cfg.minimumEdgeBps + inp.fair.uncertaintyBps) / 10000.0
    + if long then 0.0 else cfg.shortBufferBps / 10000.0 + FundingCost(cfg, inp)
  }

  /** What an entry over its threshold still has to pass. */
  predicate Affords(cfg: StrategyConfig, inp: Input, raw: real, long: bool) {
    var cost := EntryCost(cfg, inp, long);
    && (cost <= 0.0 || BooksPay(inp, long, cost)
        || (inp.regime == Trend && (if long then raw > 0.0 else raw < 0.0) && TrendMove(inp) >= cost))
    && (long || (FundingKnown(cfg, inp)
                 && FundingCost(cfg, inp) * 10000.0
                    <= Times(Max(MoveFor(inp, raw, false) * 10000.0, 0.000001), cfg.maximumEdgeShare)))
  }

  /**
   * An entry over its threshold that is not blocked is taken exactly if the books or the trend pay for its costs and,
   * for a short, the funding is known and within its share of the edge; and it reports that move.
   */
  lemma TakenIffAffordable(cfg: StrategyConfig, b: Blocks, inp: Input, long: bool)
    requires BranchOf(cfg, inp) == if long then EnterLong else EnterShort
    ensures Taken(cfg, b, inp, long) <==> !Blocked(cfg, b, long, inp) && Affords(cfg, inp, RawScore(cfg, inp), long)
    ensures Taken(cfg, b, inp, long) ==> FiguresOf(cfg, b, inp).move == MoveFor(inp, RawScore(cfg, inp), long)
  {
    hide RawScore, Blocked, MoveFor, TrendMove, BooksPay, GrossLongEdge, GrossShortEdge, Times, NetEdge, EntryCost,
         FundingFresh, FundingKnown, FundingBps, FundingCost, ThesisEnded, Confidence;
    var raw, cost := RawScore(cfg, inp), EntryCost(cfg, inp, long);
    EdgeIsMove(inp, raw);
    FundingInTerms(cfg, inp);
    MoveIsNonNegative(inp, raw, long);
    ShareOfEdge(inp, raw, cfg.maximumEdgeShare);
    if long || FundingKnown(cfg, inp) {
      EdgeIsMoveLessCost(cfg, inp, raw, long);
    }
    if cost > 0.0 {
      MovePays(inp, raw, long, cost);
    }
  }

  lemma ShareOfEdge(inp: Input, raw: real, share: real)
    ensures Times(Max(MoveFor(inp, raw, false) * 10000.0, 0.000001), share)
         == Max(GrossShortEdge(inp, raw), 0.000001) * share
  {
    hide MoveFor, GrossShortEdge;
    EdgeIsMove(inp, raw);
  }

  lemma EdgeIsMoveLessCost(cfg: StrategyConfig, inp: Input, raw: real, long: bool)
    requires long || FundingKnown(cfg, inp)
    ensures NetEdge(cfg, inp, raw, long) >= cfg.minimumEdgeBps <==> MoveFor(inp, raw, long) >= EntryCost(cfg, inp, long)
  {
    hide MoveFor, GrossLongEdge, GrossShortEdge, FundingBps, FundingCost;
    EdgeIsMove(inp, raw);
    FundingInTerms(cfg, inp);
  }

  lemma MoveIsNonNegative(inp: Input, raw: real, long: bool)
    ensures MoveFor(inp, raw, long) >= 0.0
  {
    if BooksUsable(inp) {
      GainIsNonNegative(inp.fair.bid, inp.direct.ask);
      GainIsNonNegative(inp.direct.bid, inp.fair.ask);
    }
  }

  lemma GainIsNonNegative(bid: real, ask: real)
    requires ask > 0.0
    ensures Gain(true, bid, ask) >= 0.0
  {
    var q := bid / ask;
    assert q * ask == bid;
    if bid > ask && q < 1.0 {
      MulStrict(q, 1.0, ask);
    }
  }

  lemma FundingInTerms(cfg: StrategyConfig, inp: Input)
    ensures FundingKnown(cfg, inp) ==> FundingBps(cfg, inp) == FundingCost(cfg, inp) * 10000.0
    ensures FundingKnown(cfg, inp) <==> FundingFresh(cfg, inp)
  {
  }

  /**
   * A flat account is given a long only where the fair bid exceeds the direct ask by every cost, or the trend promises
   * as much; and a short only where the direct bid so exceeds the fair ask.
   */
  lemma ExposureIsInTheBooks(cfg: StrategyConfig, b: Blocks, inp: Input, long: bool)
    requires inp.currentExposure == 0.0 && cfg.CapsAreSized(true) && cfg.CapsAreSized(false)
    requires On(long, Decided(cfg, b, inp).desiredExposure)
    ensures Affords(cfg, inp, RawScore(cfg, inp), long)
    ensures inp.regime != Trend && EntryCost(cfg, inp, long) > 0.0 ==> BooksPay(inp, long, EntryCost(cfg, inp, long))
  {
    hide Affords, RawScore, Confidence, GrossLongEdge, GrossShortEdge, FundingBps, LongSize, ShortSize, Blocked,
         EntryCost, BooksPay;
    ExposureHasItsBranch(cfg, b, inp, long);
    TakenIffAffordable(cfg, b, inp, long);
    if inp.regime != Trend && EntryCost(cfg, inp, long) > 0.0 {
      AffordedByBooks(cfg, inp, RawScore(cfg, inp), long);
    }
  }

  lemma AffordedByBooks(cfg: StrategyConfig, inp: Input, raw: real, long: bool)
    requires Affords(cfg, inp, raw, long) && inp.regime != Trend && EntryCost(cfg, inp, long) > 0.0
    ensures BooksPay(inp, long, EntryCost(cfg, inp, long))
  {
    hide EntryCost, BooksPay;
  }

  lemma ExposureHasItsBranch(cfg: StrategyConfig, b: Blocks, inp: Input, long: bool)
    requires inp.currentExposure == 0.0 && cfg.CapsAreSized(true) && cfg.CapsAreSized(false)
    requires On(long, Decided(cfg, b, inp).desiredExposure)
    ensures BranchOf(cfg, inp) == (if long then EnterLong else EnterShort) && Taken(cfg, b, inp, long)
  {
    var raw := RawScore(cfg, inp);
    SizesAreCapped(cfg, raw, Confidence(inp, raw));
    hide RawScore, Confidence, GrossLongEdge, GrossShortEdge, FundingBps, LongSize, ShortSize, Blocked, BranchOf,
         FundingFresh;
  }

  // ---- The signal as a whole ------------------------------------------------------------------------

  function WeightsOf(cfg: StrategyConfig, inp: Input): Weights {
    if inp.regime == Trend then cfg.trendWeights
    else if inp.regime == Dislocation then cfg.dislocationWeights
    else cfg.rangeWeights
  }

  /** The three scores under the regime's weights. */
  function WeightedScore(cfg: StrategyConfig, inp: Input): real {
    var w, f := WeightsOf(cfg, inp), inp.features;
    Times(w.trend, f.trendScore) + Times(w.basis, f.basisScore) + Times(w.micro, f.microScore)
  }

  /** The fair value's confidence, a little over half of it without any score and all of it with a full one. */
  function Trust(inp: Input, score: real): real {
    Max(0.0, Min(1.0, Times(inp.fair.confidence, 0.55 + 0.45 * Abs(score))))
  }

  /** The regime is one to trade in. */
  predicate Tradable(r: Regime) {
    r == Trend || r == Range || r == Dislocation
  }

  /** Why a position is held is over: the basis is back to normal, or the trend no longer runs its way. */
  predicate ThesisOver(cfg: StrategyConfig, inp: Input) {
    var x, f := inp.currentExposure, inp.features;
    x != 0.0 && if inp.regime == Trend then OnSide(f.trendScore, x > 0.0) <= cfg.trendExit
                else Abs(f.basisZ) <= cfg.meanReversionExitZ
  }

  /** A stopped-out side stays shut until the cooldown is over and the thesis reset. */
  predicate ShutOut(cfg: StrategyConfig, b: Blocks, inp: Input, long: bool) {
    var at, f := if long then b.longAt else b.shortAt, inp.features;
    && at != 0
    && (inp.now < at + cfg.cooldown || Abs(f.basisZ) > cfg.resetBasisZ || Abs(f.trendScore) > cfg.resetTrend)
  }

  /** How far a score is beyond a threshold, on the way to a full score. */
  function Strength(score: real, threshold: real): real {
    if score <= threshold then 0.0
    else if threshold >= 1.0 then 1.0
    else Min(1.0, (score - threshold) / (1.0 - threshold))
  }

  function EntrySize(cfg: StrategyConfig, score: real, trust: real, long: bool): real {
    var cap := if long then cfg.longCap
               else if trust >= cfg.highConfidence then cfg.highConfidenceShortCap else cfg.shortCap;
    var threshold := if long then cfg.longEntry else cfg.shortEntry;
    OnSide(Times(Times(cap, Strength(OnSide(score, long), threshold)), trust), long)
  }

  /** The side whose entry threshold the score is over. */
  predicate Calls(cfg: StrategyConfig, score: real, long: bool) {
    if long then score >= cfg.longEntry else score < cfg.longEntry && -score >= cfg.shortEntry
  }

  /**
   * The exposure answered: what is held outside the tradable regimes and without enough trust, nothing once the thesis
   * is over, the size of a side that is called, open and affordable, nothing of one that is not, and else what is held.
   */
  lemma ExposureAnswered(cfg: StrategyConfig, b: Blocks, inp: Input)
    ensures var x, score := Decided(cfg, b, inp).desiredExposure, WeightedScore(cfg, inp);
      var trust, stays := Trust(inp, score), x == inp.currentExposure;
      if !Tradable(inp.regime) then stays
      else if ThesisOver(cfg, inp) then x == 0.0
      else if trust < cfg.minimumConfidence then stays
      else
        && (forall long :: Calls(cfg, score, long) ==>
              x == if !ShutOut(cfg, b, inp, long) && Affords(cfg, inp, score, long)
                   then EntrySize(cfg, score, trust, long) else 0.0)
        && ((forall long :: !Calls(cfg, score, long)) ==> stays)
  {
    hide RawScore, WeightedScore, Confidence, Trust, Affords, LongSize, ShortSize, EntrySize, Blocked, ShutOut,
         ThesisEnded, ThesisOver, GrossLongEdge, GrossShortEdge, FundingBps, FundingFresh, LongSignal, ShortSignal;
    var score := WeightedScore(cfg, inp);
    SameScore(cfg, inp);
    SameThesis(cfg, inp);
    SameBlock(cfg, b, inp, true);
    SameBlock(cfg, b, inp, false);
    SameSizes(cfg, score, Trust(inp, score));
    if BranchOf(cfg, inp) == EnterLong {
      assert Calls(cfg, score, true) && !Calls(cfg, score, false);
      if !Blocked(cfg, b, true, inp) {
        SignalOfSide(cfg, b, inp, true);
      }
    } else if BranchOf(cfg, inp) == EnterShort {
      assert Calls(cfg, score, false) && !Calls(cfg, score, true);
      if !Blocked(cfg, b, false, inp) {
        SignalOfSide(cfg, b, inp, false);
      }
    } else if BranchOf(cfg, inp) == Hold(false) {
      assert !Calls(cfg, score, true) && !Calls(cfg, score, false);
    }
  }

  /**
   * Entries are off outside the tradable regimes, without enough trust, and for a side that is called but shut out or,
   * a short, of unknown funding.
   */
  lemma EntriesOffIff(cfg: StrategyConfig, b: Blocks, inp: Input)
    ensures var score := WeightedScore(cfg, inp);
      Decided(cfg, b, inp).noNewEntries <==>
        || !Tradable(inp.regime)
        || (!ThesisOver(cfg, inp)
            && (|| Trust(inp, score) < cfg.minimumConfidence
                || (Calls(cfg, score, true) && ShutOut(cfg, b, inp, true))
                || (Calls(cfg, score, false) && (ShutOut(cfg, b, inp, false) || !FundingKnown(cfg, inp)))))
  {
    hide RawScore, WeightedScore, Confidence, Trust, LongSize, ShortSize, Blocked, ShutOut, ThesisEnded, ThesisOver,
         GrossLongEdge, GrossShortEdge, FundingBps, FundingFresh, FundingKnown;
    SameScore(cfg, inp);
    SameThesis(cfg, inp);
    SameBlock(cfg, b, inp, true);
    SameBlock(cfg, b, inp, false);
    FundingInTerms(cfg, inp);
  }

  /**
   * Beside a signal the score and the trust are reported, or the plain confidence where there is no score, and no edge
   * unless an entry is taken.
   */
  lemma FiguresReported(cfg: StrategyConfig, b: Blocks, inp: Input)
    ensures var f := FiguresOf(cfg, b, inp);
      if Tradable(inp.regime)
      then
        && f.score == WeightedScore(cfg, inp) && f.confidence == Trust(inp, f.score)
        && (!Taken(cfg, b, inp, true) && !Taken(cfg, b, inp, false) ==> f.edgeBps == 0.0 == f.move)
      else f == Figures(0.0, inp.fair.confidence, 0.0, 0.0)
  {
    hide RawScore, WeightedScore, Confidence, Trust, Taken, NetEdge, GrossLongEdge, GrossShortEdge;
    SameScore(cfg, inp);
    NothingTaken(cfg, b, inp);
  }

  lemma NothingTaken(cfg: StrategyConfig, b: Blocks, inp: Input)
    ensures !Tradable(inp.regime) ==> !Taken(cfg, b, inp, true) && !Taken(cfg, b, inp, false)
  {
    hide RawScore, Confidence, NetEdge, GrossLongEdge, GrossShortEdge;
  }

  lemma SameScore(cfg: StrategyConfig, inp: Input)
    ensures RawScore(cfg, inp) == WeightedScore(cfg, inp)
    ensures forall score :: Confidence(inp, score) == Trust(inp, score)
  {
  }

  lemma SameThesis(cfg: StrategyConfig, inp: Input)
    ensures Tradable(inp.regime) ==> (ThesisEnded(cfg, inp) <==> ThesisOver(cfg, inp))
  {
  }

  lemma SameBlock(cfg: StrategyConfig, b: Blocks, inp: Input, long: bool)
    ensures Blocked(cfg, b, long, inp) <==> ShutOut(cfg, b, inp, long)
  {
  }

  lemma SameSizes(cfg: StrategyConfig, score: real, trust: real)
    requires 0.0 <= trust <= 1.0
    ensures LongSize(cfg, score, trust) == EntrySize(cfg, score, trust, true)
    ensures ShortSize(cfg, score, trust) == EntrySize(cfg, score, trust, false)
  {
    hide Times;
    SameStrength(score, cfg.longEntry);
    SameStrength(-score, cfg.shortEntry);
  }

  lemma SameStrength(score: real, threshold: real)
    ensures Normalize(score, threshold, 1.0) == Strength(score, threshold)
  {
    if score > threshold && threshold < 1.0 {
      DivMonotone(0.0, score - threshold, 1.0 - threshold);
    }
  }

  /** The signal of a side that is called and not shut out: its size if it is affordable, else nothing. */
  lemma SignalOfSide(cfg: StrategyConfig, b: Blocks, inp: Input, long: bool)
    requires BranchOf(cfg, inp) == (if long then EnterLong else EnterShort) && !Blocked(cfg, b, long, inp)
    ensures var raw := RawScore(cfg, inp);
      var size := if long then LongSize(cfg, raw, Confidence(inp, raw)) else ShortSize(cfg, raw, Confidence(inp, raw));
      (if long then LongSignal(cfg, inp, raw) else ShortSignal(cfg, inp, raw)).desiredExposure
      == if Affords(cfg, inp, raw, long) then size else 0.0
  {
    hide RawScore, Confidence, Affords, LongSize, ShortSize, Blocked, BranchOf, GrossLongEdge, GrossShortEdge,
         FundingBps, FundingFresh;
    TakenIffAffordable(cfg, b, inp, long);
  }

  // ---- The block ------------------------------------------------------------------------------------

  /** A stop-out blocks the side it stopped from its time on, and leaves the other side as it is. */
  lemma StopBlocksItsSide(b: Blocks, direction: real, at: Time, long: bool)
    ensures Marked(b, direction, at).At(long) == if OnSide(direction, long) > 0.0 then at else b.At(long)
  {
  }

  /** A question lifts the block of the side it calls once that is no longer shut out, and leaves every other block. */
  lemma QuestionLiftsIff(cfg: StrategyConfig, b: Blocks, inp: Input, long: bool)
    ensures var score := WeightedScore(cfg, inp);
      BlocksAfter(cfg, b, inp).At(long) ==
        if Tradable(inp.regime) && !ThesisOver(cfg, inp) && Trust(inp, score) >= cfg.minimumConfidence
           && Calls(cfg, score, long) && !ShutOut(cfg, b, inp, long)
        then 0 else b.At(long)
  {
    hide RawScore, WeightedScore, Confidence, Trust, ThesisEnded, ThesisOver, ShutOut, Released;
    SameScore(cfg, inp);
    SameThesis(cfg, inp);
    SameBlock(cfg, b, inp, true);
    SameBlock(cfg, b, inp, false);
  }
}
