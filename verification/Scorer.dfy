/** internal/scoring/scorer.go: the composite score of a short candidate. */
module Scorer {
  import opened Options

  type Timeframe = string

  datatype Pattern =
    | UpperWickReject | DojiAfterPump | FailedBreakout | ShootingStar | BearishEngulfing | EveningStar
    | BreakStructure | LiquiditySweep | Hammer | StrongMomentum | BullishEngulfing | MorningStar
    | BreakOfStructure | LowerWickReject | OtherPattern
  datatype Strength = STRONG | MEDIUM | WEAK | OtherStrength
  datatype Signal = Signal(timeframe: Timeframe, pattern: Pattern, strength: Strength)
  datatype Divergence = Divergence(timeframe: Timeframe, strength: Strength)

  datatype Category = Funding | OI | OI15m | BTC | Volume | ROI | Volatility | OtherCategory
  datatype BtcCondition = BreakoutBullish | BullishHighMomentum | Bullish | Bearish | Neutral | NoCondition
  datatype Threshold = Threshold(
    category: Category,
    tierOrder: int,
    minValue: Option<real>,
    maxValue: Option<real>,
    multiplier: real,
    interpolate: bool,
    condition: BtcCondition)
  datatype CandleWeight =
    | TimeframeWeight(timeframe: Timeframe, weight: real)
    | StrengthWeight(strength: Strength, weight: real)
    | MultiTFBonus(count: int, weight: real)
  datatype Tier = Tier(minScore: real, confidence: string, sizePct: real)
  datatype Weights = Weights(
    funding: real, oi: real, oi15m: real, btc: real, candle: real,
    volume: real, roi: real, volatility: real, rsiDivergence: real)
  datatype Config = Config(
    weights: Weights, thresholds: seq<Threshold>, candleWeights: seq<CandleWeight>, tiers: seq<Tier>)

  datatype Trend = TrendBullish | TrendBearish | OtherTrend
  datatype BtcContext = BtcContext(trend: Trend, momentum: int, isBreakout: bool)
  datatype Input = Input(
    fundingRate: real, dailyROI: real, oiDelta1h: real, oiDelta15m: real, volumeSpike: bool, rsi7: real,
    atrRatio: real, patterns: seq<Signal>, bullish: seq<Signal>, divergences: seq<Divergence>,
    bullishMomentum: bool, bearishMomentumWeak: bool, btc: Option<BtcContext>)

  // ---------------------------------------------------------------- thresholds

  predicate Matches(t: Threshold, cat: Category, v: real) {
    && t.category == cat
    && (t.minValue.Some? ==> v >= t.minValue.value)
    && (t.maxValue.Some? ==> v < t.maxValue.value)
  }

  /** Index of the first tier of the category that contains the value. */
  function FirstMatch(ts: seq<Threshold>, cat: Category, v: real): (k: nat)
    ensures k <= |ts|
    ensures k < |ts| ==> Matches(ts[k], cat, v)
    ensures forall j :: 0 <= j < k ==> !Matches(ts[j], cat, v)
  {
    if ts == [] then 0 else if Matches(ts[0], cat, v) then 0 else 1 + FirstMatch(ts[1..], cat, v)
  }

  function EvalThreshold(ts: seq<Threshold>, cat: Category, v: real): real {
    var k := FirstMatch(ts, cat, v);
    if k == |ts| then 0.0 else ts[k].multiplier
  }

  function FirstOfOrder(ts: seq<Threshold>, cat: Category, order: int): (k: nat)
    ensures k <= |ts|
    ensures k < |ts| ==> ts[k].category == cat && ts[k].tierOrder == order
    ensures forall j :: 0 <= j < k ==> !(ts[j].category == cat && ts[j].tierOrder == order)
  {
    if ts == [] then 0
    else if ts[0].category == cat && ts[0].tierOrder == order then 0
    else 1 + FirstOfOrder(ts[1..], cat, order)
  }

  /** The multiplier the ramp of a tier starts from: that of the tier one order below. */
  function RampBase(ts: seq<Threshold>, t: Threshold): real {
    var k := FirstOfOrder(ts, t.category, t.tierOrder - 1);
    if k == |ts| then 0.0 else ts[k].multiplier
  }

  predicate Ramps(t: Threshold) {
    t.interpolate && t.minValue.Some? && t.maxValue.Some? && t.minValue.value != t.maxValue.value
  }

  function Blend(a: real, b: real, ratio: real): real {
    a + ratio * (b - a)
  }

  function EvalInterpolated(ts: seq<Threshold>, cat: Category, v: real): real {
    var k := FirstMatch(ts, cat, v);
    if k == |ts| then 0.0
    else if !Ramps(ts[k]) then ts[k].multiplier
    else
      var lo, hi := ts[k].minValue.value, ts[k].maxValue.value;
      Blend(RampBase(ts, ts[k]), ts[k].multiplier, (v - lo) / (hi - lo))
  }

  method FindMatch(ts: seq<Threshold>, cat: Category, v: real) returns (t: Option<Threshold>)
    ensures var k := FirstMatch(ts, cat, v); t == if k == |ts| then None else Some(ts[k])
  {
    for i := 0 to |ts|
      invariant forall j :: 0 <= j < i ==> !Matches(ts[j], cat, v)
    {
      if ts[i].category != cat {
        continue;
      }
      if ts[i].minValue.Some? && v < ts[i].minValue.value {
        continue;
      }
      if ts[i].maxValue.Some? && v >= ts[i].maxValue.value {
        continue;
      }
      return Some(ts[i]);
    }
    return None;
  }

  method EvalThresholdLoop(ts: seq<Threshold>, cat: Category, v: real) returns (r: real)
    ensures r == EvalThreshold(ts, cat, v)
  {
    var t := FindMatch(ts, cat, v);
    r := if t.Some? then t.value.multiplier else 0.0;
  }

  method EvalInterpolatedLoop(ts: seq<Threshold>, cat: Category, v: real) returns (r: real)
    ensures r == EvalInterpolated(ts, cat, v)
  {
    var m := FindMatch(ts, cat, v);
    if m.None? {
      return 0.0;
    }
    var t := m.value;
    if !t.interpolate || t.minValue.None? || t.maxValue.None? || t.minValue.value == t.maxValue.value {
      return t.multiplier;
    }
    var lo, hi := t.minValue.value, t.maxValue.value;
    var prev := 0.0;
    var i := 0;
    while i < |ts|
      invariant 0 <= i <= |ts|
      invariant prev == 0.0
      invariant forall j :: 0 <= j < i ==> !(ts[j].category == cat && ts[j].tierOrder == t.tierOrder - 1)
    {
      if ts[i].category == cat && ts[i].tierOrder == t.tierOrder - 1 {
        prev := ts[i].multiplier;
        break;
      }
      i := i + 1;
    }
    assert i == FirstOfOrder(ts, cat, t.tierOrder - 1);
    return Blend(prev, t.multiplier, (v - lo) / (hi - lo));
  }

  function Condition(btc: Option<BtcContext>): BtcCondition {
    if btc.None? then Neutral
    else
      var b := btc.value;
      if b.isBreakout && b.trend.TrendBullish? then BreakoutBullish
      else if b.trend.TrendBullish? && b.momentum > 70 then BullishHighMomentum
      else if b.trend.TrendBullish? then Bullish
      else if b.trend.TrendBearish? then Bearish
      else Neutral
  }

  function FirstCondition(ts: seq<Threshold>, cond: BtcCondition): (k: nat)
    ensures k <= |ts|
  {
    if ts == [] then 0
    else if ts[0].category == BTC && ts[0].condition == cond then 0
    else 1 + FirstCondition(ts[1..], cond)
  }

  function EvalBTC(ts: seq<Threshold>, btc: Option<BtcContext>): real {
    var k := FirstCondition(ts, Condition(btc));
    if k == |ts| then 0.7 else ts[k].multiplier
  }

  function EvalVolume(ts: seq<Threshold>, spike: bool, rsi: real): real {
    EvalThreshold(ts, Volume, if spike then rsi else -1.0)
  }

  // ---------------------------------------------------------------- sums

  function Sum<T>(s: seq<T>, f: T -> real): real {
    if s == [] then 0.0 else Sum(s[..|s| - 1], f) + f(s[|s| - 1])
  }

  lemma SumOfNone<T>(f: T -> real)
    ensures Sum([], f) == 0.0
  {
  }

  lemma {:induction false} SumWithout<T>(s: seq<T>, f: T -> real, k: nat)
    requires k < |s|
    ensures Sum(s, f) == Sum(s[..k] + s[k + 1..], f) + f(s[k])
  {
    if k < |s| - 1 {
      var t := s[..|s| - 1];
      SumWithout(t, f, k);
      var r := s[..k] + s[k + 1..];
      assert r[..|r| - 1] == t[..k] + t[k + 1..];
    } else {
      assert s[..k] + s[k + 1..] == s[..k];
    }
  }

  lemma PlaceOfLast<T>(a: seq<T>, b: seq<T>) returns (k: nat)
    requires multiset(a) == multiset(b) && a != []
    ensures k < |b| && b[k] == a[|a| - 1]
    ensures multiset(a[..|a| - 1]) == multiset(b[..k] + b[k + 1..])
  {
    var n := |a| - 1;
    assert a[n] in multiset(a) && a[n] in multiset(b);
    k :| 0 <= k < |b| && b[k] == a[n];
    MultisetWithout(a, n);
    MultisetWithout(b, k);
    assert a[..n] + a[n + 1..] == a[..n];
  }

  lemma MultisetWithout<T>(s: seq<T>, k: nat)
    requires k < |s|
    ensures multiset(s[..k] + s[k + 1..]) == multiset(s) - multiset{s[k]}
  {
    assert s == s[..k] + ([s[k]] + s[k + 1..]);
  }

  /** A sum does not depend on the order of its terms. */
  lemma {:induction false} SumOfPermutation<T>(a: seq<T>, b: seq<T>, f: T -> real)
    requires multiset(a) == multiset(b)
    ensures Sum(a, f) == Sum(b, f)
    decreases |a|
  {
    if a == [] {
      assert |multiset(b)| == 0;
    } else {
      var k := PlaceOfLast(a, b);
      SumWithout(b, f, k);
      SumOfPermutation(a[..|a| - 1], b[..k] + b[k + 1..], f);
    }
  }

  lemma SameMembers<T>(a: seq<T>, b: seq<T>)
    requires multiset(a) == multiset(b)
    ensures forall x :: x in a <==> x in b
    ensures |a| == |b|
  {
    assert |multiset(a)| == |multiset(b)|;
    forall x
      ensures x in a <==> x in b
    {
      assert x in a <==> x in multiset(a);
    }
  }

  ghost function SetSum<T(!new)>(s: set<T>, f: T -> real): real {
    if s == {} then 0.0
    else
      var x :| x in s;
      f(x) + SetSum(s - {x}, f)
  }

  lemma {:induction false} SetSumWithout<T(!new)>(s: set<T>, f: T -> real, y: T)
    requires y in s
    ensures SetSum(s, f) == f(y) + SetSum(s - {y}, f)
    decreases s
  {
    var x :| x in s && SetSum(s, f) == f(x) + SetSum(s - {x}, f);
    if x != y {
      SetSumWithout(s - {x}, f, y);
      SetSumWithout(s - {y}, f, x);
      assert s - {x} - {y} == s - {y} - {x};
    }
  }

  // ---------------------------------------------------------------- candle patterns

  datatype CandleMaps = CandleMaps(
    timeframe: map<Timeframe, real>, strength: map<Strength, real>, bonus: map<int, real>)

  function At<K>(m: map<K, real>, k: K): real {
    if k in m then m[k] else 0.0
  }

  /** Later entries of the list override earlier ones. */
  function BuildCandleMaps(ws: seq<CandleWeight>): CandleMaps {
    if ws == [] then CandleMaps(map[], map[], map[])
    else
      var m := BuildCandleMaps(ws[..|ws| - 1]);
      match ws[|ws| - 1]
      case TimeframeWeight(tf, w) => m.(timeframe := m.timeframe[tf := w])
      case StrengthWeight(st, w) => m.(strength := m.strength[st := w])
      case MultiTFBonus(n, w) => m.(bonus := m.bonus[n := w])
  }

  function BearishWeight(p: Pattern): real {
    match p
    case UpperWickReject => 2.0
    case DojiAfterPump => 1.5
    case FailedBreakout => 3.0
    case ShootingStar => 3.0
    case BearishEngulfing => 4.0
    case EveningStar => 5.0
    case BreakStructure => 6.0
    case LiquiditySweep => 6.0
    case _ => 0.0
  }

  function SignalScore(m: CandleMaps): Signal -> real {
    (s: Signal) => BearishWeight(s.pattern) * At(m.timeframe, s.timeframe) * At(m.strength, s.strength)
  }

  /** The strongest score a timeframe can contribute. */
  function TimeframeMax(m: CandleMaps): Timeframe -> real {
    (tf: Timeframe) => 6.0 * At(m.timeframe, tf) * 1.5
  }

  predicate Has(signals: seq<Signal>, p: Pattern) {
    exists s :: s in signals && s.pattern == p
  }

  function Timeframes(signals: seq<Signal>): set<Timeframe> {
    set s | s in signals :: s.timeframe
  }

  function Synergy(signals: seq<Signal>): real {
    (if Has(signals, FailedBreakout) && Has(signals, UpperWickReject) then 1.20 else 1.0)
    * (if Has(signals, LiquiditySweep) && Has(signals, BearishEngulfing) then 1.20 else 1.0)
  }

  /** The candle score from its sum, its normaliser and its timeframe bonus. */
  function Normalised(sum: real, synergy: real, maxRaw: real, bonus: real, maxScore: real): real {
    if maxRaw == 0.0 then 0.0 else Capped(sum * synergy / maxRaw, bonus, maxScore)
  }

  function Capped(q: real, bonus: real, maxScore: real): real {
    AtMost((AtMost(q, 1.0) + bonus) * maxScore, maxScore)
  }

  function AtMost(x: real, limit: real): (r: real)
    ensures r <= limit && r <= x && (r == x || r == limit)
  {
    if x > limit then limit else x
  }

  ghost function CandleScore(signals: seq<Signal>, maxScore: real, m: CandleMaps): real {
    if signals == [] then 0.0
    else
      var tfs := Timeframes(signals);
      Normalised(Sum(signals, SignalScore(m)), Synergy(signals), SetSum(tfs, TimeframeMax(m)),
                 At(m.bonus, |tfs|), maxScore)
  }

  method SumOverTimeframes(tfs: set<Timeframe>, m: CandleMaps) returns (r: real)
    ensures r == SetSum(tfs, TimeframeMax(m))
  {
    r := 0.0;
    var rest := tfs;
    while rest != {}
      invariant rest <= tfs
      invariant r + SetSum(rest, TimeframeMax(m)) == SetSum(tfs, TimeframeMax(m))
      decreases rest
    {
      var tf :| tf in rest;
      SetSumWithout(rest, TimeframeMax(m), tf);
      r := r + 6.0 * At(m.timeframe, tf) * 1.5;
      rest := rest - {tf};
    }
  }

  /** The map over timeframes is walked in any order. */
  method ScoreCandlePatterns(signals: seq<Signal>, maxScore: real, m: CandleMaps) returns (r: real)
    ensures r == CandleScore(signals, maxScore, m)
  {
    hide Normalised, Sum, SetSum, Has, Timeframes;
    if |signals| == 0 {
      return 0.0;
    }
    var raw, tfHit: set<Timeframe> := 0.0, {};
    NoSignals(m);
    var failedBreakout, upperWick, sweep, engulfing := false, false, false, false;
    for i := 0 to |signals|
      invariant raw == Sum(signals[..i], SignalScore(m))
      invariant tfHit == Timeframes(signals[..i])
      invariant failedBreakout <==> Has(signals[..i], FailedBreakout)
      invariant upperWick <==> Has(signals[..i], UpperWickReject)
      invariant sweep <==> Has(signals[..i], LiquiditySweep)
      invariant engulfing <==> Has(signals[..i], BearishEngulfing)
    {
      var sig := signals[i];
      OneMoreSignal(signals, i, m);
      raw := raw + BearishWeight(sig.pattern) * At(m.timeframe, sig.timeframe) * At(m.strength, sig.strength);
      tfHit := tfHit + {sig.timeframe};
      match sig.pattern {
        case FailedBreakout => failedBreakout := true;
        case UpperWickReject => upperWick := true;
        case LiquiditySweep => sweep := true;
        case BearishEngulfing => engulfing := true;
        case _ =>
      }
    }
    assert signals[..|signals|] == signals;
    var factor := 1.0;
    if failedBreakout && upperWick {
      factor := factor * 1.20;
    }
    if sweep && engulfing {
      factor := factor * 1.20;
    }
    assert factor == Synergy(signals);
    var maxRaw := SumOverTimeframes(tfHit, m);
    r := Normalised(raw, factor, maxRaw, At(m.bonus, |tfHit|), maxScore);
  }

  lemma NoSignals(m: CandleMaps)
    ensures Sum([], SignalScore(m)) == 0.0 && Timeframes([]) == {} && forall p :: !Has([], p)
  {
  }

  lemma OneMoreSignal(signals: seq<Signal>, i: nat, m: CandleMaps)
    requires i < |signals|
    ensures Sum(signals[..i + 1], SignalScore(m)) == Sum(signals[..i], SignalScore(m)) + SignalScore(m)(signals[i])
    ensures Timeframes(signals[..i + 1]) == Timeframes(signals[..i]) + {signals[i].timeframe}
    ensures forall p :: Has(signals[..i + 1], p) <==> Has(signals[..i], p) || signals[i].pattern == p
  {
    var t, u := signals[..i], signals[..i + 1];
    assert u == t + [signals[i]] && u[..|u| - 1] == t;
    assert forall x :: x in u <==> x in t || x == signals[i];
    forall p
      ensures Has(u, p) <==> Has(t, p) || signals[i].pattern == p
    {
      assert signals[i] in u;
    }
  }

  lemma CandleScoreOfPermutation(a: seq<Signal>, b: seq<Signal>, maxScore: real, m: CandleMaps)
    requires multiset(a) == multiset(b)
    ensures CandleScore(a, maxScore, m) == CandleScore(b, maxScore, m)
  {
    hide Normalised, Sum, SetSum, Synergy;
    SameMembers(a, b);
    SumOfPermutation(a, b, SignalScore(m));
    assert Timeframes(a) == Timeframes(b);
    SynergyOfSame(a, b);
  }

  lemma SynergyOfSame(a: seq<Signal>, b: seq<Signal>)
    requires forall x :: x in a <==> x in b
    ensures Synergy(a) == Synergy(b)
  {
  }

  // ---------------------------------------------------------------- RSI divergences

  datatype DivCondition = NoDivergence | StrongMultiTF | StrongOne | MediumMultiTF | MediumOne | WeakOnly

  function StrongTFs(divs: seq<Divergence>): set<Timeframe> {
    set d | d in divs && d.strength == STRONG :: d.timeframe
  }

  function MediumTFs(divs: seq<Divergence>): set<Timeframe> {
    (set d | d in divs && d.strength == MEDIUM :: d.timeframe) - StrongTFs(divs)
  }

  /** By how many timeframes have a strong divergence, or at best a medium one. */
  function DivConditionOf(divs: seq<Divergence>): DivCondition {
    if divs == [] then NoDivergence else ConditionOf(|StrongTFs(divs)|, |MediumTFs(divs)|)
  }

  function ConditionOf(strong: nat, medium: nat): DivCondition {
    if strong >= 2 then StrongMultiTF
    else if strong == 1 then StrongOne
    else if medium >= 2 then MediumMultiTF
    else if medium == 1 then MediumOne
    else WeakOnly
  }

  /** The medium_multitf tier is missing from the list, so it falls through to 0. */
  function EvalRSIDivergence(divs: seq<Divergence>): real {
    match DivConditionOf(divs)
    case StrongMultiTF => 1.00
    case StrongOne => 0.80
    case MediumOne => 0.40
    case WeakOnly => 0.20
    case MediumMultiTF => 0.0
    case NoDivergence => 0.0
  }

  function StrengthRank(s: Strength): nat {
    match s case STRONG => 3 case MEDIUM => 2 case WEAK => 1 case OtherStrength => 0
  }

  predicate StrongestSeen(divs: seq<Divergence>, best: map<Timeframe, Strength>) {
    && (forall d :: d in divs ==> d.timeframe in best && StrengthRank(d.strength) <= StrengthRank(best[d.timeframe]))
    && (forall tf :: tf in best ==> Divergence(tf, best[tf]) in divs)
  }

  lemma StrongestDecides(divs: seq<Divergence>, best: map<Timeframe, Strength>)
    requires StrongestSeen(divs, best)
    ensures StrongTFs(divs) == set tf | tf in best && best[tf] == STRONG
    ensures MediumTFs(divs) == set tf | tf in best && best[tf] == MEDIUM
  {
  }

  method RsidivCondition(divs: seq<Divergence>) returns (r: DivCondition)
    ensures r == DivConditionOf(divs)
  {
    if |divs| == 0 {
      return NoDivergence;
    }
    var best := StrongestPerTimeframe(divs);
    StrongestDecides(divs, best);
    var strongCount := CountOf(best, STRONG);
    var mediumCount := CountOf(best, MEDIUM);
    return ConditionOf(strongCount, mediumCount);
  }

  method StrongestPerTimeframe(divs: seq<Divergence>) returns (best: map<Timeframe, Strength>)
    ensures StrongestSeen(divs, best)
  {
    best := map[];
    for i := 0 to |divs|
      invariant StrongestSeen(divs[..i], best)
    {
      var d := divs[i];
      assert divs[..i + 1] == divs[..i] + [d];
      if d.timeframe !in best || StrengthRank(d.strength) > StrengthRank(best[d.timeframe]) {
        best := best[d.timeframe := d.strength];
      }
    }
    assert divs[..|divs|] == divs;
  }

  /** The map is walked in any order. */
  method CountOf(best: map<Timeframe, Strength>, strength: Strength) returns (n: nat)
    ensures n == |set tf | tf in best && best[tf] == strength|
  {
    n := 0;
    var rest := best.Keys;
    ghost var seen: set<Timeframe> := {};
    while rest != {}
      invariant rest <= best.Keys
      invariant n == |seen| && seen == set tf | tf in best && tf !in rest && best[tf] == strength
      decreases rest
    {
      var tf :| tf in rest;
      rest := rest - {tf};
      if best[tf] == strength {
        n := n + 1;
        seen := seen + {tf};
      }
    }
    assert seen == set tf | tf in best && best[tf] == strength;
  }

  lemma DivConditionOfPermutation(a: seq<Divergence>, b: seq<Divergence>)
    requires multiset(a) == multiset(b)
    ensures DivConditionOf(a) == DivConditionOf(b)
  {
    SameMembers(a, b);
    assert StrongTFs(a) == StrongTFs(b);
    assert MediumTFs(a) == MediumTFs(b);
  }

  // ---------------------------------------------------------------- penalties

  function BullishWeight(p: Pattern): real {
    match p
    case Hammer => 0.5
    case StrongMomentum => 1.0
    case BullishEngulfing => 1.5
    case MorningStar => 2.0
    case BreakOfStructure => 6.0
    case LiquiditySweep => 6.0
    case LowerWickReject => 1.0
    case _ => 0.0
  }

  function Ceil(x: real): real { -((-x).Floor as real) }

  function BullishSignal(s: Signal): real {
    match s.strength
    case STRONG => BullishWeight(s.pattern)
    case MEDIUM => Ceil(BullishWeight(s.pattern) * 0.5)
    case WEAK => 1.0
    case OtherStrength => 0.0
  }

  const BULLISH: Signal -> real := (s: Signal) => BullishSignal(s)

  method BullishSignalScore(signals: seq<Signal>) returns (score: real)
    ensures score == Sum(signals, BULLISH)
  {
    score := 0.0;
    for i := 0 to |signals|
      invariant score == Sum(signals[..i], BULLISH)
    {
      assert signals[..i + 1][..i] == signals[..i];
      score := score + BullishSignal(signals[i]);
    }
    assert signals[..|signals|] == signals;
  }

  function BullishPenalty(signals: seq<Signal>, candleWeight: real): real {
    var score := Sum(signals, BULLISH);
    if score >= 16.0 then -candleWeight
    else if score >= 12.0 then -(candleWeight * 0.5)
    else if score >= 8.0 then -(candleWeight * 0.25)
    else 0.0
  }

  function MomentumPenalty(bullishMomentum: bool, bearishMomentumWeak: bool, pre: real): real {
    if pre <= 0.0 then 0.0
    else
      var m := (if bullishMomentum then 0.80 else 1.0) * (if bearishMomentumWeak then 0.90 else 1.0);
      if m == 1.0 then 0.0 else pre * m - pre
  }

  // ---------------------------------------------------------------- the composite

  function Weighted(multiplier: real, weight: real): real {
    multiplier * weight
  }

  ghost function PreComposite(cfg: Config, i: Input): real {
    var w := cfg.weights;
    Weighted(EvalInterpolated(cfg.thresholds, Funding, i.fundingRate), w.funding)
    + Weighted(EvalThreshold(cfg.thresholds, OI, i.oiDelta1h), w.oi)
    + Weighted(EvalThreshold(cfg.thresholds, OI15m, i.oiDelta15m), w.oi15m)
    + Weighted(EvalBTC(cfg.thresholds, i.btc), w.btc)
    + CandleScore(i.patterns, w.candle, BuildCandleMaps(cfg.candleWeights))
    + Weighted(EvalVolume(cfg.thresholds, i.volumeSpike, i.rsi7), w.volume)
    + Weighted(EvalThreshold(cfg.thresholds, ROI, i.dailyROI), w.roi)
    + Weighted(EvalThreshold(cfg.thresholds, Volatility, i.atrRatio), w.volatility)
    + Weighted(EvalRSIDivergence(i.divergences), w.rsiDivergence)
    + BullishPenalty(i.bullish, w.candle)
  }

  ghost function Composite(cfg: Config, i: Input): real {
    PreComposite(cfg, i) + MomentumPenalty(i.bullishMomentum, i.bearishMomentumWeak, PreComposite(cfg, i))
  }

  method MapScoreToConfidence(tiers: seq<Tier>, score: real) returns (confidence: string, sizePct: real)
    ensures IsTierFor(tiers, score, confidence, sizePct)
  {
    var sorted := SortTiers(tiers);
    for k := 0 to |sorted|
      invariant forall j :: 0 <= j < k ==> score < sorted[j].minScore
    {
      if score >= sorted[k].minScore {
        assert sorted[k] in multiset(sorted) && sorted[k] in tiers;
        forall t | t in tiers && score >= t.minScore
          ensures t.minScore <= sorted[k].minScore
        {
          assert t in multiset(tiers) && t in sorted;
        }
        return sorted[k].confidence, sorted[k].sizePct;
      }
    }
    forall t | t in tiers
      ensures score < t.minScore
    {
      assert t in multiset(tiers) && t in sorted;
    }
    return "SKIP", 0.0;
  }

  /** The tier of highest MinScore the score reaches, or SKIP if it reaches none. */
  ghost predicate IsTierFor(tiers: seq<Tier>, score: real, confidence: string, sizePct: real) {
    || (exists t :: t in tiers && t.confidence == confidence && t.sizePct == sizePct && IsHighestReached(tiers, score, t))
    || ((forall t :: t in tiers ==> score < t.minScore) && confidence == "SKIP" && sizePct == 0.0)
  }

  predicate IsHighestReached(tiers: seq<Tier>, score: real, t: Tier) {
    score >= t.minScore && forall u :: u in tiers && score >= u.minScore ==> u.minScore <= t.minScore
  }

  method InsertTier(sorted: seq<Tier>, t: Tier) returns (r: seq<Tier>)
    requires forall i, j :: 0 <= i < j < |sorted| ==> sorted[i].minScore >= sorted[j].minScore
    ensures forall i, j :: 0 <= i < j < |r| ==> r[i].minScore >= r[j].minScore
    ensures multiset(r) == multiset(sorted) + multiset{t}
  {
    var k := 0;
    while k < |sorted| && sorted[k].minScore > t.minScore
      invariant k <= |sorted|
      invariant forall j :: 0 <= j < k ==> sorted[j].minScore > t.minScore
    {
      k := k + 1;
    }
    assert sorted == sorted[..k] + sorted[k..];
    r := sorted[..k] + [t] + sorted[k..];
  }

  method SortTiers(tiers: seq<Tier>) returns (sorted: seq<Tier>)
    ensures multiset(sorted) == multiset(tiers)
    ensures forall i, j :: 0 <= i < j < |sorted| ==> sorted[i].minScore >= sorted[j].minScore
  {
    sorted := [];
    for k := 0 to |tiers|
      invariant multiset(sorted) == multiset(tiers[..k])
      invariant forall i, j :: 0 <= i < j < |sorted| ==> sorted[i].minScore >= sorted[j].minScore
    {
      assert tiers[..k + 1] == tiers[..k] + [tiers[k]];
      sorted := InsertTier(sorted, tiers[k]);
    }
    assert tiers[..|tiers|] == tiers;
  }

  /** The scorer itself, category by category. */
  method Score(cfg: Config, i: Input) returns (composite: real, confidence: string, sizePct: real)
    ensures composite == Composite(cfg, i)
    ensures IsTierFor(cfg.tiers, composite, confidence, sizePct)
  {
    hide CandleScore, Sum, EvalInterpolated, EvalThreshold, EvalBTC, FirstMatch, IsTierFor, Weighted, MomentumPenalty;
    var ts, w := cfg.thresholds, cfg.weights;
    var funding := EvalInterpolatedLoop(ts, Funding, i.fundingRate);
    var oi := EvalThresholdLoop(ts, OI, i.oiDelta1h);
    var oi15m := EvalThresholdLoop(ts, OI15m, i.oiDelta15m);
    var candle := ScoreCandlePatterns(i.patterns, w.candle, BuildCandleMaps(cfg.candleWeights));
    var volume := EvalThresholdLoop(ts, Volume, if i.volumeSpike then i.rsi7 else -1.0);
    var roi := EvalThresholdLoop(ts, ROI, i.dailyROI);
    var volatility := EvalThresholdLoop(ts, Volatility, i.atrRatio);
    var condition := RsidivCondition(i.divergences);
    var divergence := match condition
      case StrongMultiTF => 1.00 case StrongOne => 0.80 case MediumOne => 0.40 case WeakOnly => 0.20
      case MediumMultiTF => 0.0 case NoDivergence => 0.0;
    var bullish := BullishSignalScore(i.bullish);
    var penalty := if bullish >= 16.0 then -w.candle
      else if bullish >= 12.0 then -(w.candle * 0.5)
      else if bullish >= 8.0 then -(w.candle * 0.25)
      else 0.0;
    var pre := Weighted(funding, w.funding) + Weighted(oi, w.oi) + Weighted(oi15m, w.oi15m)
      + Weighted(EvalBTC(ts, i.btc), w.btc) + candle + Weighted(volume, w.volume) + Weighted(roi, w.roi)
      + Weighted(volatility, w.volatility) + Weighted(divergence, w.rsiDivergence) + penalty;
    composite := pre + MomentumPenalty(i.bullishMomentum, i.bearishMomentumWeak, pre);
    confidence, sizePct := MapScoreToConfidence(cfg.tiers, composite);
  }
}
