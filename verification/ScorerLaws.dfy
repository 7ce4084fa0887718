/** What the composite score does not depend on, and where it lies. */
module ScorerLaws {
  import opened Options
  import opened Scorer

  // ---------------------------------------------------------------- order does not matter

  /** Same candidate, with its three signal lists in another order. */
  predicate Reordered(a: Input, b: Input) {
    && multiset(a.patterns) == multiset(b.patterns)
    && multiset(a.bullish) == multiset(b.bullish)
    && multiset(a.divergences) == multiset(b.divergences)
    && b == a.(patterns := b.patterns, bullish := b.bullish, divergences := b.divergences)
  }

  lemma CompositeOfReordered(cfg: Config, a: Input, b: Input)
    requires Reordered(a, b)
    ensures Composite(cfg, a) == Composite(cfg, b)
  {
    hide CandleScore, Sum, DivConditionOf, EvalInterpolated, EvalThreshold, EvalBTC, Weighted, MomentumPenalty;
    CandleScoreOfPermutation(a.patterns, b.patterns, cfg.weights.candle, BuildCandleMaps(cfg.candleWeights));
    SumOfPermutation(a.bullish, b.bullish, BULLISH);
    DivConditionOfPermutation(a.divergences, b.divergences);
  }

  predicate AgreeOnTies(tiers: seq<Tier>) {
    forall t, u :: t in tiers && u in tiers && t.minScore == u.minScore ==>
                     t.confidence == u.confidence && t.sizePct == u.sizePct
  }

  lemma TierAtItsScore(tiers: seq<Tier>, t: Tier)
    requires t in tiers
    ensures IsTierFor(tiers, t.minScore, t.confidence, t.sizePct)
  {
  }

  /** The tier list determines the result of every score, however the unstable sort
      leaves equal keys, exactly when tiers of equal MinScore agree. */
  lemma TiersDetermineResultIff(tiers: seq<Tier>)
    ensures (forall score, c, s, c', s' :: IsTierFor(tiers, score, c, s) && IsTierFor(tiers, score, c', s') ==> c == c' && s == s')
       <==> AgreeOnTies(tiers)
  {
    if !AgreeOnTies(tiers) {
      var t, u :| t in tiers && u in tiers && t.minScore == u.minScore
                  && !(t.confidence == u.confidence && t.sizePct == u.sizePct);
      TierAtItsScore(tiers, t);
      TierAtItsScore(tiers, u);
    }
  }

  /** A permutation of tiers with distinct MinScores gives the same result. */
  lemma TierOfPermutation(a: seq<Tier>, b: seq<Tier>, score: real, c: string, s: real, c': string, s': real)
    requires multiset(a) == multiset(b)
    requires forall i, j :: 0 <= i < j < |a| ==> a[i].minScore != a[j].minScore
    requires IsTierFor(a, score, c, s) && IsTierFor(b, score, c', s')
    ensures c == c' && s == s'
  {
    SameMembers(a, b);
    assert AgreeOnTies(a);
    assert IsTierFor(a, score, c', s') by {
      if t :| t in b && t.confidence == c' && t.sizePct == s' && IsHighestReached(b, score, t) {
        assert t in a && IsHighestReached(a, score, t);
      }
    }
    TiersDetermineResultIff(a);
  }

  // ---------------------------------------------------------------- the missing divergence tier

  predicate NewMedium(divs: seq<Divergence>, d: Divergence) {
    d.strength == MEDIUM && d.timeframe !in StrongTFs(divs) && d.timeframe !in MediumTFs(divs)
  }

  lemma OneMoreDivergence(divs: seq<Divergence>, d: Divergence)
    ensures StrongTFs(divs + [d]) == if d.strength == STRONG then StrongTFs(divs) + {d.timeframe} else StrongTFs(divs)
    ensures d.strength != STRONG ==>
              MediumTFs(divs + [d]) == if NewMedium(divs, d) then MediumTFs(divs) + {d.timeframe} else MediumTFs(divs)
  {
  }

  lemma OneMoreCounts(divs: seq<Divergence>, d: Divergence)
    ensures d.strength == STRONG ==> |StrongTFs(divs + [d])| >= 1 && |StrongTFs(divs + [d])| >= |StrongTFs(divs)|
    ensures d.strength != STRONG ==>
              && |StrongTFs(divs + [d])| == |StrongTFs(divs)|
              && |MediumTFs(divs + [d])| == |MediumTFs(divs)| + if NewMedium(divs, d) then 1 else 0
  {
    hide StrongTFs, MediumTFs;
    OneMoreDivergence(divs, d);
    var s, tf := StrongTFs(divs), d.timeframe;
    if tf in s { assert s + {tf} == s; }
  }

  /** One more divergence lowers the score exactly when it makes a second timeframe
      medium and none is strong: the tier for that case is missing. */
  lemma ExtraDivergenceLowersIff(divs: seq<Divergence>, d: Divergence)
    ensures EvalRSIDivergence(divs + [d]) < EvalRSIDivergence(divs)
       <==> DivConditionOf(divs) == MediumOne && NewMedium(divs, d)
  {
    hide StrongTFs, MediumTFs, NewMedium;
    OneMoreCounts(divs, d);
    NewIsMedium(divs, d);
    assert divs + [d] != [];
  }

  lemma NewIsMedium(divs: seq<Divergence>, d: Divergence)
    ensures NewMedium(divs, d) ==> d.strength == MEDIUM
    ensures divs == [] ==> |StrongTFs(divs)| == |MediumTFs(divs)| == 0
  {
  }

  // ---------------------------------------------------------------- bounds

  predicate Unit(x: real) { 0.0 <= x <= 1.0 }

  predicate Sane(cfg: Config) {
    var w := cfg.weights;
    && w.funding >= 0.0 && w.oi >= 0.0 && w.oi15m >= 0.0 && w.btc >= 0.0 && w.candle >= 0.0
    && w.volume >= 0.0 && w.roi >= 0.0 && w.volatility >= 0.0 && w.rsiDivergence >= 0.0
    && (forall t :: t in cfg.thresholds ==> Unit(t.multiplier))
    && (forall cw :: cw in cfg.candleWeights ==> cw.weight >= 0.0)
  }

  function TotalWeight(w: Weights): real {
    w.funding + w.oi + w.oi15m + w.btc + w.candle + w.volume + w.roi + w.volatility + w.rsiDivergence
  }

  predicate UnitMultipliers(ts: seq<Threshold>) {
    forall t :: t in ts ==> Unit(t.multiplier)
  }

  lemma ThresholdUnit(ts: seq<Threshold>, cat: Category, v: real)
    requires UnitMultipliers(ts)
    ensures Unit(EvalThreshold(ts, cat, v))
  {
  }

  lemma BlendUnit(a: real, b: real, r: real)
    requires Unit(a) && Unit(b) && Unit(r)
    ensures Unit(Blend(a, b, r))
  {
    assert Blend(a, b, r) == (1.0 - r) * a + r * b;
    assert 0.0 <= (1.0 - r) * a <= 1.0 - r;
    assert 0.0 <= r * b <= r;
  }

  lemma InterpolatedUnit(ts: seq<Threshold>, cat: Category, v: real)
    requires UnitMultipliers(ts)
    ensures Unit(EvalInterpolated(ts, cat, v))
  {
    var k := FirstMatch(ts, cat, v);
    if k < |ts| && Ramps(ts[k]) {
      var lo, hi := ts[k].minValue.value, ts[k].maxValue.value;
      RatioUnit(v - lo, hi - lo);
      BlendUnit(RampBase(ts, ts[k]), ts[k].multiplier, (v - lo) / (hi - lo));
    }
  }

  lemma RatioUnit(x: real, y: real)
    requires 0.0 <= x < y
    ensures Unit(x / y)
  {
  }

  lemma Product(x: real, y: real)
    requires x >= 0.0 && y >= 0.0
    ensures x * y >= 0.0
  {
  }

  lemma BtcUnit(ts: seq<Threshold>, btc: Option<BtcContext>)
    requires UnitMultipliers(ts)
    ensures Unit(EvalBTC(ts, btc))
  {
  }

  lemma {:induction false} SumNotNegative<T>(s: seq<T>, f: T -> real)
    requires forall x :: x in s ==> f(x) >= 0.0
    ensures Sum(s, f) >= 0.0
  {
    if s != [] {
      SumNotNegative(s[..|s| - 1], f);
    }
  }

  lemma {:induction false} SetSumNotNegative<T(!new)>(s: set<T>, f: T -> real)
    requires forall x :: x in s ==> f(x) >= 0.0
    ensures SetSum(s, f) >= 0.0
    decreases s
  {
    if s != {} {
      var x :| x in s && SetSum(s, f) == f(x) + SetSum(s - {x}, f);
      SetSumNotNegative(s - {x}, f);
    }
  }

  predicate MapsNotNegative(m: CandleMaps) {
    && (forall k :: k in m.timeframe ==> m.timeframe[k] >= 0.0)
    && (forall k :: k in m.strength ==> m.strength[k] >= 0.0)
    && (forall k :: k in m.bonus ==> m.bonus[k] >= 0.0)
  }

  lemma {:induction false} BuiltNotNegative(ws: seq<CandleWeight>)
    requires forall cw :: cw in ws ==> cw.weight >= 0.0
    ensures MapsNotNegative(BuildCandleMaps(ws))
  {
    if ws != [] {
      BuiltNotNegative(ws[..|ws| - 1]);
    }
  }

  lemma NotNegative3(a: real, b: real, c: real)
    requires a >= 0.0 && b >= 0.0 && c >= 0.0
    ensures a * b * c >= 0.0
  {
  }

  lemma NormalisedBounds(sum: real, synergy: real, maxRaw: real, bonus: real, maxScore: real)
    requires sum >= 0.0 && synergy >= 0.0 && maxRaw >= 0.0 && bonus >= 0.0 && maxScore >= 0.0
    ensures 0.0 <= Normalised(sum, synergy, maxRaw, bonus, maxScore) <= maxScore
  {
  }

  lemma CandleBounds(signals: seq<Signal>, maxScore: real, m: CandleMaps)
    requires maxScore >= 0.0 && MapsNotNegative(m)
    ensures 0.0 <= CandleScore(signals, maxScore, m) <= maxScore
  {
    hide Normalised;
    var tfs := Timeframes(signals);
    forall s: Signal
      ensures SignalScore(m)(s) >= 0.0
    {
      NotNegative3(BearishWeight(s.pattern), At(m.timeframe, s.timeframe), At(m.strength, s.strength));
    }
    forall tf: Timeframe
      ensures TimeframeMax(m)(tf) >= 0.0
    {
    }
    SumNotNegative(signals, SignalScore(m));
    SetSumNotNegative(tfs, TimeframeMax(m));
    NormalisedBounds(Sum(signals, SignalScore(m)), Synergy(signals), SetSum(tfs, TimeframeMax(m)), At(m.bonus, |tfs|), maxScore);
  }

  lemma WeightedBounds(m: real, w: real)
    requires Unit(m) && w >= 0.0
    ensures 0.0 <= Weighted(m, w) <= w
  {
    Product(m, w);
    Product(1.0 - m, w);
    assert (1.0 - m) * w == w - m * w;
  }

  lemma MomentumBounds(bullishMomentum: bool, weak: bool, pre: real)
    ensures var c := pre + MomentumPenalty(bullishMomentum, weak, pre);
            if pre <= 0.0 then c == pre else 0.72 * pre <= c <= pre
  {
  }

  lemma PreCompositeBounds(cfg: Config, i: Input)
    requires Sane(cfg)
    ensures -cfg.weights.candle <= PreComposite(cfg, i) <= TotalWeight(cfg.weights)
  {
    hide CandleScore, EvalInterpolated, EvalThreshold, EvalBTC, Weighted, Sum, DivConditionOf;
    var ts, w := cfg.thresholds, cfg.weights;
    assert UnitMultipliers(ts);
    InterpolatedUnit(ts, Funding, i.fundingRate);
    ThresholdUnit(ts, OI, i.oiDelta1h);
    ThresholdUnit(ts, OI15m, i.oiDelta15m);
    BtcUnit(ts, i.btc);
    ThresholdUnit(ts, Volume, if i.volumeSpike then i.rsi7 else -1.0);
    ThresholdUnit(ts, ROI, i.dailyROI);
    ThresholdUnit(ts, Volatility, i.atrRatio);
    WeightedBounds(EvalInterpolated(ts, Funding, i.fundingRate), w.funding);
    WeightedBounds(EvalThreshold(ts, OI, i.oiDelta1h), w.oi);
    WeightedBounds(EvalThreshold(ts, OI15m, i.oiDelta15m), w.oi15m);
    WeightedBounds(EvalBTC(ts, i.btc), w.btc);
    WeightedBounds(EvalVolume(ts, i.volumeSpike, i.rsi7), w.volume);
    WeightedBounds(EvalThreshold(ts, ROI, i.dailyROI), w.roi);
    WeightedBounds(EvalThreshold(ts, Volatility, i.atrRatio), w.volatility);
    WeightedBounds(EvalRSIDivergence(i.divergences), w.rsiDivergence);
    BuiltNotNegative(cfg.candleWeights);
    CandleBounds(i.patterns, w.candle, BuildCandleMaps(cfg.candleWeights));
  }

  /** With weights not negative and multipliers in [0, 1], the composite lies
      between minus the candle weight and the sum of the weights. */
  lemma CompositeBounds(cfg: Config, i: Input)
    requires Sane(cfg)
    ensures -cfg.weights.candle <= Composite(cfg, i) <= TotalWeight(cfg.weights)
  {
    hide PreComposite, MomentumPenalty;
    PreCompositeBounds(cfg, i);
    MomentumBounds(i.bullishMomentum, i.bearishMomentumWeak, PreComposite(cfg, i));
  }

  // ---------------------------------------------------------------- each reading moves its own category

  /** Changing one reading moves the sum before the momentum penalty by the change
      of its category's multiplier times that category's weight, nothing else. */
  lemma ReadingsMoveOwnCategory(cfg: Config, i: Input, x: real)
    ensures var ts, w, pre := cfg.thresholds, cfg.weights, PreComposite(cfg, i);
            && PreComposite(cfg, i.(fundingRate := x)) - pre
               == (EvalInterpolated(ts, Funding, x) - EvalInterpolated(ts, Funding, i.fundingRate)) * w.funding
            && PreComposite(cfg, i.(oiDelta1h := x)) - pre
               == (EvalThreshold(ts, OI, x) - EvalThreshold(ts, OI, i.oiDelta1h)) * w.oi
            && PreComposite(cfg, i.(oiDelta15m := x)) - pre
               == (EvalThreshold(ts, OI15m, x) - EvalThreshold(ts, OI15m, i.oiDelta15m)) * w.oi15m
            && PreComposite(cfg, i.(dailyROI := x)) - pre
               == (EvalThreshold(ts, ROI, x) - EvalThreshold(ts, ROI, i.dailyROI)) * w.roi
            && PreComposite(cfg, i.(atrRatio := x)) - pre
               == (EvalThreshold(ts, Volatility, x) - EvalThreshold(ts, Volatility, i.atrRatio)) * w.volatility
            && PreComposite(cfg, i.(rsi7 := x)) - pre
               == if i.volumeSpike then (EvalThreshold(ts, Volume, x) - EvalThreshold(ts, Volume, i.rsi7)) * w.volume else 0.0
  {
    hide EvalInterpolated, EvalThreshold, EvalBTC, CandleScore, BullishPenalty, EvalRSIDivergence;
  }

  lemma SignalsMoveOwnCategory(cfg: Config, i: Input, btc: Option<BtcContext>, patterns: seq<Signal>, bullish: seq<Signal>,
                               divergences: seq<Divergence>)
    ensures var ts, w, pre := cfg.thresholds, cfg.weights, PreComposite(cfg, i);
            && PreComposite(cfg, i.(btc := btc)) - pre == (EvalBTC(ts, btc) - EvalBTC(ts, i.btc)) * w.btc
            && PreComposite(cfg, i.(divergences := divergences)) - pre
               == (EvalRSIDivergence(divergences) - EvalRSIDivergence(i.divergences)) * w.rsiDivergence
            && PreComposite(cfg, i.(patterns := patterns)) - pre
               == CandleScore(patterns, w.candle, BuildCandleMaps(cfg.candleWeights))
                  - CandleScore(i.patterns, w.candle, BuildCandleMaps(cfg.candleWeights))
            && PreComposite(cfg, i.(bullish := bullish)) - pre
               == BullishPenalty(bullish, w.candle) - BullishPenalty(i.bullish, w.candle)
  {
    hide EvalThreshold, EvalInterpolated, EvalBTC, CandleScore, BullishPenalty, EvalRSIDivergence;
  }

  /** Bullish momentum takes a fifth of a positive sum, weak bearish momentum a tenth
      of what is left; a sum that is not positive stays. */
  lemma MomentumTakesShare(cfg: Config, i: Input)
    ensures var pre, c := PreComposite(cfg, i), Composite(cfg, i);
            if pre <= 0.0 then c == pre
            else c * 100.0 == pre * (if i.bullishMomentum then if i.bearishMomentumWeak then 72.0 else 80.0
                                     else if i.bearishMomentumWeak then 90.0 else 100.0)
  {
    hide PreComposite;
  }

  // ---------------------------------------------------------------- single multipliers

  /** Below the tier's lower bound, or at or above its upper one. */
  predicate Outside(t: Threshold, v: real) {
    (t.minValue.Some? && v < t.minValue.value) || (t.maxValue.Some? && v >= t.maxValue.value)
  }

  /** A value outside every tier scores nothing; one inside a tier that comes first
      scores that tier's multiplier, ramped between its bounds from the multiplier of
      the tier one order below. */
  lemma FirstTierDecides(ts: seq<Threshold>, cat: Category, v: real, k: nat, prev: nat)
    requires k < |ts| && ts[k].category == cat
    requires !Outside(ts[k], v)
    requires forall j :: 0 <= j < k ==> ts[j].category != cat || Outside(ts[j], v)
    requires prev < |ts| && ts[prev].category == cat && ts[prev].tierOrder == ts[k].tierOrder - 1
    requires forall j :: 0 <= j < prev ==> ts[j].category != cat || ts[j].tierOrder != ts[k].tierOrder - 1
    ensures EvalThreshold(ts, cat, v) == ts[k].multiplier
    ensures !ts[k].interpolate ==> EvalInterpolated(ts, cat, v) == ts[k].multiplier
    ensures ts[k].interpolate && ts[k].minValue.Some? && ts[k].maxValue.Some? ==>
              var lo, hi, m := ts[k].minValue.value, ts[k].maxValue.value, EvalInterpolated(ts, cat, v);
              (m - ts[prev].multiplier) * (hi - lo) == (v - lo) * (ts[k].multiplier - ts[prev].multiplier)
  {
    var i := FirstMatch(ts, cat, v);
    assert Matches(ts[k], cat, v) && i == k;
    assert FirstOfOrder(ts, cat, ts[k].tierOrder - 1) == prev;
    if Ramps(ts[k]) {
      var lo, hi, step := ts[k].minValue.value, ts[k].maxValue.value, ts[k].multiplier - ts[prev].multiplier;
      var ratio := (v - lo) / (hi - lo);
      assert ratio * (hi - lo) == v - lo;
      assert ratio * step * (hi - lo) == (v - lo) * step;
    }
  }

  lemma NoTierScoresNothing(ts: seq<Threshold>, cat: Category, v: real)
    requires forall t :: t in ts && t.category == cat ==> Outside(t, v)
    ensures EvalThreshold(ts, cat, v) == 0.0 == EvalInterpolated(ts, cat, v)
  {
  }

  /** The bullish penalty grows with the bullish score: none below 8, then a quarter,
      half and all of the candle weight from 8, 12 and 16. */
  lemma BullishPenaltyGrows(a: seq<Signal>, b: seq<Signal>, w: real)
    requires Sum(a, BULLISH) <= Sum(b, BULLISH) && w >= 0.0
    ensures -w <= BullishPenalty(b, w) <= BullishPenalty(a, w) <= 0.0
    ensures var score := Sum(a, BULLISH);
            BullishPenalty(a, w) == -(if score < 8.0 then 0.0 else if score < 12.0 then w / 4.0 else if score < 16.0 then w / 2.0 else w)
  {
    hide Sum;
  }

  /** One signal scores its pattern weight times its strength weight over nine (the
      strongest pattern at 1.5), plus the bonus for one timeframe, of the maximum. */
  lemma OneSignalScores(s: Signal, maxScore: real, m: CandleMaps)
    requires At(m.timeframe, s.timeframe) > 0.0 && maxScore >= 0.0
    ensures var q := BearishWeight(s.pattern) * At(m.strength, s.strength) / 9.0;
            var part := (if q > 1.0 then 1.0 else q) + At(m.bonus, 1);
            CandleScore([s], maxScore, m) == if part * maxScore > maxScore then maxScore else part * maxScore
  {
    hide *;
    OneSignalSums(s, m);
    OneNormalised(BearishWeight(s.pattern), At(m.timeframe, s.timeframe), At(m.strength, s.strength), At(m.bonus, 1), maxScore);
    CandleScoreOfOne(s, maxScore, m);
  }

  lemma CandleScoreOfOne(s: Signal, maxScore: real, m: CandleMaps)
    ensures CandleScore([s], maxScore, m)
         == Normalised(Sum([s], SignalScore(m)), Synergy([s]), SetSum(Timeframes([s]), TimeframeMax(m)),
                       At(m.bonus, |Timeframes([s])|), maxScore)
  {
    hide Sum, SetSum, Synergy, Timeframes, Normalised, At;
  }

  lemma OneSignalSums(s: Signal, m: CandleMaps)
    ensures Sum([s], SignalScore(m)) == BearishWeight(s.pattern) * At(m.timeframe, s.timeframe) * At(m.strength, s.strength)
    ensures |Timeframes([s])| == 1 && SetSum(Timeframes([s]), TimeframeMax(m)) == 6.0 * At(m.timeframe, s.timeframe) * 1.5
    ensures Synergy([s]) == 1.0
  {
    hide BearishWeight, At;
    assert [s][..0] == [];
    SumOfNone(SignalScore(m));
    assert Timeframes([s]) == {s.timeframe};
    SetSumWithout({s.timeframe}, TimeframeMax(m), s.timeframe);
    assert {s.timeframe} - {s.timeframe} == {} && SetSum({}, TimeframeMax(m)) == 0.0;
  }

  lemma OneNormalised(p: real, tf: real, st: real, bonus: real, maxScore: real)
    requires tf > 0.0 && maxScore >= 0.0
    ensures var q := p * st / 9.0;
            var part := (if q > 1.0 then 1.0 else q) + bonus;
            Normalised(p * tf * st, 1.0, 6.0 * tf * 1.5, bonus, maxScore) == if part * maxScore > maxScore then maxScore else part * maxScore
  {
    assert 6.0 * tf * 1.5 != 0.0;
    OneQuotient(p, tf, st);
    var q := p * st / 9.0;
    var part := (if q > 1.0 then 1.0 else q) + bonus;
    assert p * tf * st * 1.0 / (6.0 * tf * 1.5) == q && part == AtMost(q, 1.0) + bonus;
    assert Capped(q, bonus, maxScore) == AtMost(part * maxScore, maxScore);
  }

  lemma OneQuotient(p: real, tf: real, st: real)
    requires tf > 0.0
    ensures p * tf * st * 1.0 / (6.0 * tf * 1.5) == p * st / 9.0
  {
    var x := p * st / 9.0;
    assert x * 9.0 == p * st;
    assert x * (6.0 * tf * 1.5) == p * tf * st;
  }

  /** Which BTC tier applies: a bullish trend by breakout, then by momentum above 70,
      then as such; a bearish one; neutral for anything else and without context. */
  predicate BtcCase(btc: Option<BtcContext>, cond: BtcCondition) {
    match cond
    case BreakoutBullish => btc.Some? && btc.value.trend == TrendBullish && btc.value.isBreakout
    case BullishHighMomentum =>
      btc.Some? && btc.value.trend == TrendBullish && !btc.value.isBreakout && btc.value.momentum > 70
    case Bullish => btc.Some? && btc.value.trend == TrendBullish && !btc.value.isBreakout && btc.value.momentum <= 70
    case Bearish => btc.Some? && btc.value.trend == TrendBearish
    case Neutral => btc.None? || btc.value.trend == OtherTrend
    case NoCondition => false
  }

  /** The first BTC tier of the case that applies decides; without one, 0.7. */
  lemma BtcTierDecides(ts: seq<Threshold>, btc: Option<BtcContext>, cond: BtcCondition, k: nat)
    requires BtcCase(btc, cond) && k <= |ts|
    requires forall j :: 0 <= j < k ==> ts[j].category != BTC || ts[j].condition != cond
    requires k < |ts| ==> ts[k].category == BTC && ts[k].condition == cond
    ensures EvalBTC(ts, btc) == if k < |ts| then ts[k].multiplier else 0.7
  {
    assert Condition(btc) == cond;
    FirstConditionIs(ts, cond, k);
  }

  lemma {:induction false} FirstConditionIs(ts: seq<Threshold>, cond: BtcCondition, k: nat)
    requires k <= |ts| && forall j :: 0 <= j < k ==> ts[j].category != BTC || ts[j].condition != cond
    requires k < |ts| ==> ts[k].category == BTC && ts[k].condition == cond
    ensures FirstCondition(ts, cond) == k
  {
    if k > 0 {
      FirstConditionIs(ts[1..], cond, k - 1);
    }
  }

  /** The weights used are the last ones listed for a timeframe, a strength and a
      number of timeframes. */
  lemma {:induction false} LastWeightCounts(ws: seq<CandleWeight>, k: nat)
    requires k < |ws| && forall j :: k < j < |ws| ==> !SameSlot(ws[k], ws[j])
    ensures var m := BuildCandleMaps(ws);
            match ws[k]
            case TimeframeWeight(tf, w) => At(m.timeframe, tf) == w
            case StrengthWeight(st, w) => At(m.strength, st) == w
            case MultiTFBonus(n, w) => At(m.bonus, n) == w
    decreases |ws|
  {
    if k < |ws| - 1 {
      LastWeightCounts(ws[..|ws| - 1], k);
    }
  }

  predicate SameSlot(a: CandleWeight, b: CandleWeight) {
    || (a.TimeframeWeight? && b.TimeframeWeight? && a.timeframe == b.timeframe)
    || (a.StrengthWeight? && b.StrengthWeight? && a.strength == b.strength)
    || (a.MultiTFBonus? && b.MultiTFBonus? && a.count == b.count)
  }
}
