/** internal/indicator/rsi_divergence.go: the search for a bearish divergence. */
module Divergence {
  import opened Options
  import opened Candles
  import opened Rsi

  const PERIOD: nat := 14
  const LOOKBACK: nat := 80
  const MIN_SWING_DISTANCE: nat := 3
  const MIN_PROMINENCE: real := 0.15
  const STRONG_PRICE: real := 1.0
  const STRONG_RSI: real := 6.0
  const MIN_RSI_PEAK: real := 50.0
  const MAX_BARS_SINCE: nat := 15
  const PEAK_RADIUS: nat := 3
  const OVERBOUGHT: real := 75.0

  datatype Strength = WEAK | MEDIUM | STRONG

  // ---------------------------------------------------------------- swing highs

  predicate IsSwing(w: seq<Candle>, i: int) {
    && MIN_SWING_DISTANCE <= i < |w| - MIN_SWING_DISTANCE
    && (forall j :: i - MIN_SWING_DISTANCE <= j <= i + MIN_SWING_DISTANCE ==> w[j].high <= w[i].high)
    && Prominent(w, i)
  }

  predicate Prominent(w: seq<Candle>, i: int)
    requires MIN_SWING_DISTANCE <= i < |w| - MIN_SWING_DISTANCE
  {
    var ref := Max(w[i - MIN_SWING_DISTANCE].high, w[i + MIN_SWING_DISTANCE].high);
    ref > 0.0 && (w[i].high - ref) / ref * 100.0 >= MIN_PROMINENCE
  }

  lemma SwingPositive(w: seq<Candle>, i: int)
    requires IsSwing(w, i)
    ensures w[i].high > 0.0
  {
  }

  /** All the swing highs, in order. */
  ghost predicate IsSwingList(w: seq<Candle>, swings: seq<int>) {
    && (forall i, j :: 0 <= i < j < |swings| ==> swings[i] < swings[j])
    && (forall i :: i in swings <==> IsSwing(w, i))
  }

  method FindSwingHighs(w: seq<Candle>) returns (swings: seq<int>)
    ensures IsSwingList(w, swings)
  {
    swings := [];
    var i := MIN_SWING_DISTANCE;
    while i < |w| - MIN_SWING_DISTANCE
      invariant MIN_SWING_DISTANCE <= i
      invariant forall a, b :: 0 <= a < b < |swings| ==> swings[a] < swings[b]
      invariant forall k :: k in swings <==> k < i && IsSwing(w, k)
    {
      var high := w[i].high;
      var isSwing := true;
      var j := i - MIN_SWING_DISTANCE;
      while j <= i + MIN_SWING_DISTANCE
        invariant i - MIN_SWING_DISTANCE <= j <= i + MIN_SWING_DISTANCE + 1
        invariant isSwing
        invariant forall k :: i - MIN_SWING_DISTANCE <= k < j ==> w[k].high <= high
      {
        if j != i && w[j].high > high {
          isSwing := false;
          break;
        }
        j := j + 1;
      }
      if isSwing {
        var ref := Max(w[i - MIN_SWING_DISTANCE].high, w[i + MIN_SWING_DISTANCE].high);
        if ref > 0.0 {
          var prominence := (high - ref) / ref * 100.0;
          if prominence >= MIN_PROMINENCE {
            assert forall k :: 0 <= k < |swings| ==> swings[k] in swings;
            swings := swings + [i];
          }
        }
      }
      i := i + 1;
    }
  }

  // ---------------------------------------------------------------- RSI peaks

  /** m is the greatest of s[lo..hi]. */
  predicate IsPeak(s: seq<real>, lo: int, hi: int, m: real)
    requires 0 <= lo && hi <= |s|
  {
    && (exists k :: lo <= k < hi && s[k] == m)
    && (forall k :: lo <= k < hi ==> s[k] <= m)
  }

  function IntMax(a: int, b: int): int { if a > b then a else b }
  function IntMin(a: int, b: int): int { if a < b then a else b }

  /** The greatest RSI ending at a candle from lo to hi - 1. */
  function RsiPeak(c: seq<Candle>, lo: nat, hi: nat): real
    requires PERIOD <= lo < hi <= |c|
    decreases hi
  {
    if hi == lo + 1 then RsiAt(c, PERIOD, lo)
    else Max(RsiPeak(c, lo, hi - 1), RsiAt(c, PERIOD, hi - 1))
  }

  /** The peak within the search radius of candle g. */
  function PeakNear(c: seq<Candle>, g: nat): real
    requires PERIOD <= g < |c|
  {
    RsiPeak(c, IntMax(PERIOD, g - PEAK_RADIUS), IntMin(|c|, g + PEAK_RADIUS + 1))
  }

  lemma {:induction false} RsiPeakIs(c: seq<Candle>, lo: nat, hi: nat, m: real)
    requires PERIOD <= lo < hi <= |c|
    requires exists k :: lo <= k < hi && RsiAt(c, PERIOD, k) == m
    requires forall k :: lo <= k < hi ==> RsiAt(c, PERIOD, k) <= m
    ensures RsiPeak(c, lo, hi) == m
  {
    RsiPeakBounds(c, lo, hi);
  }

  lemma {:induction false} RsiPeakBounds(c: seq<Candle>, lo: nat, hi: nat)
    requires PERIOD <= lo < hi <= |c|
    ensures forall k :: lo <= k < hi ==> RsiAt(c, PERIOD, k) <= RsiPeak(c, lo, hi)
    ensures exists k :: lo <= k < hi && RsiAt(c, PERIOD, k) == RsiPeak(c, lo, hi)
    decreases hi
  {
    if hi == lo + 1 {
      assert RsiAt(c, PERIOD, lo) == RsiPeak(c, lo, hi);
    } else {
      RsiPeakBounds(c, lo, hi - 1);
      assert RsiAt(c, PERIOD, hi - 1) <= RsiPeak(c, lo, hi);
    }
  }

  method LocalRSIPeak(rsi: seq<real>, center: nat, radius: nat) returns (peak: real)
    requires center < |rsi|
    ensures IsPeak(rsi, IntMax(0, center - radius), IntMin(|rsi|, center + radius + 1), peak)
  {
    var start, end := IntMax(0, center - radius), IntMin(|rsi| - 1, center + radius);
    peak := rsi[center];
    assert start <= center <= end;
    var i := start;
    while i <= end
      invariant start <= i <= end + 1
      invariant forall k :: start <= k < i ==> rsi[k] <= peak
      invariant exists k :: start <= k < end + 1 && rsi[k] == peak
    {
      if rsi[i] > peak {
        peak := rsi[i];
      }
      i := i + 1;
    }
  }

  /** In a series whose entry k is the RSI ending at candle PERIOD + k, the peak
      around entry g - PERIOD is the peak near candle g. */
  lemma SeriesPeak(c: seq<Candle>, series: seq<real>, g: nat, m: real)
    requires PERIOD <= g < |c| && |series| == |c| - PERIOD
    requires forall k :: 0 <= k < |series| ==> series[k] == RsiAt(c, PERIOD, PERIOD + k)
    requires IsPeak(series, IntMax(0, g - PERIOD - PEAK_RADIUS), IntMin(|series|, g - PERIOD + PEAK_RADIUS + 1), m)
    ensures m == PeakNear(c, g)
  {
    var lo, hi := IntMax(PERIOD, g - PEAK_RADIUS), IntMin(|c|, g + PEAK_RADIUS + 1);
    var k :| lo - PERIOD <= k < hi - PERIOD && series[k] == m;
    assert RsiAt(c, PERIOD, k + PERIOD) == m;
    forall j | lo <= j < hi
      ensures RsiAt(c, PERIOD, j) <= m
    {
      assert series[j - PERIOD] <= m;
    }
    RsiPeakIs(c, lo, hi, m);
  }

  // ---------------------------------------------------------------- qualifying pairs

  predicate LongEnough(c: seq<Candle>) {
    |c| >= PERIOD + LOOKBACK + 10
  }

  function Window(c: seq<Candle>): seq<Candle>
    requires LongEnough(c)
  {
    c[|c| - LOOKBACK..]
  }

  /** The RSI peak near window candle i. */
  function PeakAt(c: seq<Candle>, i: nat): real
    requires LongEnough(c) && i < LOOKBACK
  {
    PeakNear(c, |c| - LOOKBACK + i)
  }

  /** A higher price high with a lower RSI high, the later one recent enough. */
  predicate Qualifies(c: seq<Candle>, a: int, b: int)
    requires LongEnough(c)
  {
    var w := Window(c);
    && a < b
    && IsSwing(w, a) && IsSwing(w, b)
    && |w| - 1 - b <= MAX_BARS_SINCE
    && w[b].high > w[a].high
    && PeakAt(c, b) < PeakAt(c, a)
    && Max(PeakAt(c, a), PeakAt(c, b)) >= MIN_RSI_PEAK
  }

  function PriceDiffPct(pa: real, pb: real): real
    requires pa != 0.0
  {
    (pb - pa) / pa * 100.0
  }

  function PriceDiff(c: seq<Candle>, a: int, b: int): real
    requires LongEnough(c) && Qualifies(c, a, b)
  {
    SwingPositive(Window(c), a);
    PriceDiffPct(Window(c)[a].high, Window(c)[b].high)
  }

  function RsiDiff(c: seq<Candle>, a: int, b: int): real
    requires LongEnough(c) && Qualifies(c, a, b)
  {
    PeakAt(c, a) - PeakAt(c, b)
  }

  function Score(c: seq<Candle>, a: int, b: int): real
    requires LongEnough(c) && Qualifies(c, a, b)
  {
    PriceDiff(c, a, b) + RsiDiff(c, a, b)
  }

  function Rank(strength: Strength): nat {
    match strength case WEAK => 0 case MEDIUM => 1 case STRONG => 2
  }

  function One(b: bool): nat { if b then 1 else 0 }

  /** One rank for each of: a strong price move, a strong RSI drop, an overbought
      peak; capped at STRONG. */
  function PairRank(c: seq<Candle>, a: int, b: int): nat
    requires LongEnough(c) && Qualifies(c, a, b)
  {
    IntMin(2, One(PriceDiff(c, a, b) >= STRONG_PRICE)
              + One(RsiDiff(c, a, b) >= STRONG_RSI)
              + One(PeakAt(c, a) >= OVERBOUGHT || PeakAt(c, b) >= OVERBOUGHT))
  }

  function Classify(priceDiffPct: real, rsiDiffPts: real, rsiA: real, rsiB: real): Strength {
    var s := if priceDiffPct >= STRONG_PRICE && rsiDiffPts >= STRONG_RSI then STRONG
             else if priceDiffPct >= STRONG_PRICE || rsiDiffPts >= STRONG_RSI then MEDIUM
             else WEAK;
    if rsiA >= OVERBOUGHT || rsiB >= OVERBOUGHT then
      match s case WEAK => MEDIUM case _ => STRONG
    else s
  }

  /** No bound in the search needs it, but it follows: swings of a qualifying pair
      are further apart than the swing distance. */
  lemma QualifyingPairsApart(c: seq<Candle>, a: int, b: int)
    requires LongEnough(c) && Qualifies(c, a, b)
    ensures b - a > MIN_SWING_DISTANCE
  {
  }

  lemma ScorePositive(c: seq<Candle>, a: int, b: int)
    requires LongEnough(c) && Qualifies(c, a, b)
    ensures Score(c, a, b) > 0.0
  {
  }

  // ---------------------------------------------------------------- the search

  /** Pairs are scanned with the later swing going backwards, then the earlier. */
  predicate ScannedBefore(a: int, b: int, a': int, b': int) {
    b > b' || (b == b' && a > a')
  }

  /** Of two qualifying pairs the search prefers the higher score and, among equal
      scores, the one scanned first. */
  predicate Beats(c: seq<Candle>, a: int, b: int, a': int, b': int)
    requires LongEnough(c) && Qualifies(c, a, b) && Qualifies(c, a', b')
  {
    || (a, b) == (a', b')
    || Score(c, a, b) > Score(c, a', b')
    || (Score(c, a, b) == Score(c, a', b') && ScannedBefore(a, b, a', b'))
  }

  ghost predicate IsBest(c: seq<Candle>, a: int, b: int)
    requires LongEnough(c)
  {
    Qualifies(c, a, b) && forall a', b' :: Qualifies(c, a', b') ==> Beats(c, a, b, a', b')
  }

  /** best (if any) is the best of the pairs scanned before (a0, b0). */
  ghost predicate BestBefore(c: seq<Candle>, a0: int, b0: int, best: Option<(int, int)>)
    requires LongEnough(c)
  {
    && (best.Some? ==> Qualifies(c, best.value.0, best.value.1) && ScannedBefore(best.value.0, best.value.1, a0, b0))
    && forall a, b :: Qualifies(c, a, b) && ScannedBefore(a, b, a0, b0) ==>
                        best.Some? && Beats(c, best.value.0, best.value.1, a, b)
  }

  /** The cursor after the earlier swing at index j. */
  function Prev(swings: seq<int>, j: int): int
    requires j < |swings|
  {
    if j < 0 then -1 else swings[j]
  }

  lemma SwingBetween(w: seq<Candle>, swings: seq<int>, j: nat, a: int)
    requires IsSwingList(w, swings) && j < |swings|
    requires IsSwing(w, a) && Prev(swings, j - 1) < a <= swings[j]
    ensures a == swings[j]
  {
  }

  /** Passing over a pair that does not qualify or does not score higher. */
  lemma PassOver(c: seq<Candle>, swings: seq<int>, b: int, j: nat, best: Option<(int, int)>)
    requires LongEnough(c) && IsSwingList(Window(c), swings) && j < |swings|
    requires BestBefore(c, swings[j], b, best)
    requires Qualifies(c, swings[j], b) ==>
               best.Some? && Score(c, swings[j], b) <= Score(c, best.value.0, best.value.1)
    ensures BestBefore(c, Prev(swings, j - 1), b, best)
  {
    forall a | Qualifies(c, a, b) && Prev(swings, j - 1) < a <= swings[j]
      ensures a == swings[j]
    {
      SwingBetween(Window(c), swings, j, a);
    }
  }

  /** Taking a pair that scores higher than all before it. */
  lemma TakePair(c: seq<Candle>, swings: seq<int>, b: int, j: nat, best: Option<(int, int)>)
    requires LongEnough(c) && IsSwingList(Window(c), swings) && j < |swings|
    requires BestBefore(c, swings[j], b, best)
    requires Qualifies(c, swings[j], b)
    requires best.Some? ==> Score(c, swings[j], b) > Score(c, best.value.0, best.value.1)
    ensures BestBefore(c, Prev(swings, j - 1), b, Some((swings[j], b)))
  {
    hide Score;
    forall a | Qualifies(c, a, b) && Prev(swings, j - 1) < a <= swings[j]
      ensures a == swings[j]
    {
      SwingBetween(Window(c), swings, j, a);
    }
    hide Qualifies, IsSwingList;
  }

  /** Moving on to the next later swing. */
  lemma NextSwing(c: seq<Candle>, swings: seq<int>, i: nat, best: Option<(int, int)>)
    requires LongEnough(c) && IsSwingList(Window(c), swings) && 0 < i < |swings|
    requires BestBefore(c, -1, swings[i], best)
    ensures BestBefore(c, swings[i - 1], swings[i - 1], best)
  {
    forall a, b | Qualifies(c, a, b) && ScannedBefore(a, b, swings[i - 1], swings[i - 1])
      ensures ScannedBefore(a, b, -1, swings[i])
    {
      if b <= swings[i] {
        SwingBetween(Window(c), swings, i, b);
      }
    }
  }

  lemma ClassifyIsPairRank(c: seq<Candle>, a: int, b: int)
    requires LongEnough(c) && Qualifies(c, a, b)
    ensures Rank(Classify(PriceDiff(c, a, b), RsiDiff(c, a, b), PeakAt(c, a), PeakAt(c, b))) == PairRank(c, a, b)
  {
  }

  /** The series index of window candle a is in range: the bounds guard of the
      search never passes over a pair. */
  lemma SeriesIndexInRange(c: seq<Candle>, a: int)
    requires LongEnough(c) && 0 <= a < LOOKBACK
    ensures 0 <= |c| - LOOKBACK + a - PERIOD < |c| - PERIOD
  {
  }

  /** The result and score held for the best pair so far. */
  ghost predicate Holds(c: seq<Candle>, best: Option<(int, int)>, r: Option<Strength>, bestScore: real)
    requires LongEnough(c)
  {
    match best
    case None => r.None? && bestScore == -1.0
    case Some((a, b)) => Qualifies(c, a, b) && r.Some? && bestScore == Score(c, a, b) && Rank(r.value) == PairRank(c, a, b)
  }

  /** One pair of the inner loop; the RSI series is only read. */
  method ScorePair(c: seq<Candle>, series: seq<real>, a: int, b: int, bestScore: real)
    returns (better: Option<(real, Strength)>)
    requires LongEnough(c) && a < b && IsSwing(Window(c), a) && IsSwing(Window(c), b)
    requires LOOKBACK - 1 - b <= MAX_BARS_SINCE
    requires |series| == |c| - PERIOD
    requires forall k :: 0 <= k < |series| ==> series[k] == RsiAt(c, PERIOD, PERIOD + k)
    ensures better.Some? <==> Qualifies(c, a, b) && Score(c, a, b) > bestScore
    ensures better.Some? ==> better.value.0 == Score(c, a, b) && Rank(better.value.1) == PairRank(c, a, b)
  {
    var windowStart, offset := |c| - LOOKBACK, |c| - |series|;
    var rsiIdxA, rsiIdxB := windowStart + a - offset, windowStart + b - offset;
    SeriesIndexInRange(c, a);
    SeriesIndexInRange(c, b);
    var priceA, priceB := Window(c)[a].high, Window(c)[b].high;
    if priceB <= priceA {
      return None;
    }
    var rsiA := LocalRSIPeak(series, rsiIdxA, PEAK_RADIUS);
    var rsiB := LocalRSIPeak(series, rsiIdxB, PEAK_RADIUS);
    SeriesPeak(c, series, windowStart + a, rsiA);
    SeriesPeak(c, series, windowStart + b, rsiB);
    if rsiB >= rsiA || Max(rsiA, rsiB) < MIN_RSI_PEAK {
      return None;
    }
    SwingPositive(Window(c), a);
    var priceDiffPct := PriceDiffPct(priceA, priceB);
    var rsiDiffPts := rsiA - rsiB;
    var score := priceDiffPct + rsiDiffPts;
    if score <= bestScore {
      return None;
    }
    ClassifyIsPairRank(c, a, b);
    return Some((score, Classify(priceDiffPct, rsiDiffPts, rsiA, rsiB)));
  }

  /** The inner loop: every earlier swing against swings[i]. */
  method ScanEarlier(c: seq<Candle>, series: seq<real>, swings: seq<int>, i: nat,
                     bestScore0: real, r0: Option<Strength>, ghost best0: Option<(int, int)>)
    returns (bestScore: real, r: Option<Strength>, ghost best: Option<(int, int)>)
    requires LongEnough(c) && IsSwingList(Window(c), swings) && 0 < i < |swings|
    requires LOOKBACK - 1 - swings[i] <= MAX_BARS_SINCE
    requires |series| == |c| - PERIOD
    requires forall k :: 0 <= k < |series| ==> series[k] == RsiAt(c, PERIOD, PERIOD + k)
    requires BestBefore(c, swings[i - 1], swings[i], best0) && Holds(c, best0, r0, bestScore0)
    ensures BestBefore(c, -1, swings[i], best) && Holds(c, best, r, bestScore)
  {
    hide BestBefore, Qualifies, PeakAt, Score, PairRank;
    bestScore, r, best := bestScore0, r0, best0;
    var b := swings[i];
    var j := i - 1;
    while j >= 0
      invariant -1 <= j < i
      invariant BestBefore(c, Prev(swings, j), b, best) && Holds(c, best, r, bestScore)
    {
      var a := swings[j];
      assert a in swings && b in swings && a < b;
      var better := ScorePair(c, series, a, b, bestScore);
      if Qualifies(c, a, b) { ScorePositive(c, a, b); }
      if better.Some? {
        TakePair(c, swings, b, j, best);
        bestScore, r, best := better.value.0, Some(better.value.1), Some((a, b));
      } else {
        PassOver(c, swings, b, j, best);
      }
      j := j - 1;
    }
  }

  lemma NothingScanned(c: seq<Candle>, swings: seq<int>)
    requires LongEnough(c) && IsSwingList(Window(c), swings) && |swings| > 0
    ensures var last := swings[|swings| - 1]; BestBefore(c, last, last, None)
  {
    forall a, b | Qualifies(c, a, b)
      ensures b <= swings[|swings| - 1]
    {
      PairInSwings(c, swings, a, b);
    }
  }

  lemma PairInSwings(c: seq<Candle>, swings: seq<int>, a: int, b: int)
    requires LongEnough(c) && IsSwingList(Window(c), swings)
    ensures Qualifies(c, a, b) ==> |swings| >= 2 && b <= swings[|swings| - 1]
  {
    if Qualifies(c, a, b) {
      var x :| 0 <= x < |swings| && swings[x] == a;
      var y :| 0 <= y < |swings| && swings[y] == b;
    }
  }

  lemma FewSwings(c: seq<Candle>, swings: seq<int>)
    requires LongEnough(c) && IsSwingList(Window(c), swings) && |swings| < 2
    ensures forall a, b :: !Qualifies(c, a, b)
  {
    forall a, b
      ensures !Qualifies(c, a, b)
    {
      PairInSwings(c, swings, a, b);
    }
  }

  /** nil exactly when the candles are too few or no pair qualifies; otherwise the
      strength of the best pair. */
  method DetectRSIDivergence(c: seq<Candle>) returns (r: Option<Strength>, ghost pair: (int, int))
    ensures r.None? <==> !LongEnough(c) || forall a, b :: !Qualifies(c, a, b)
    ensures r.Some? ==> IsBest(c, pair.0, pair.1) && Rank(r.value) == PairRank(c, pair.0, pair.1)
  {
    hide BestBefore, Qualifies, IsSwingList, PeakAt, IsBest, Score, PairRank;
    r, pair := None, (0, 0);
    if |c| < PERIOD + LOOKBACK + 10 {
      return;
    }
    var series := ComputeRSISeries(c, PERIOD);
    var swings := FindSwingHighs(Window(c));
    if |swings| < 2 {
      FewSwings(c, swings);
      return;
    }
    NothingScanned(c, swings);
    var bestScore := -1.0;
    ghost var best: Option<(int, int)> := None;
    var i := |swings| - 1;
    while i >= 1
      invariant 0 <= i < |swings|
      invariant BestBefore(c, swings[i], swings[i], best) && Holds(c, best, r, bestScore)
    {
      AtOwnSwing(c, swings, i, best);
      if LOOKBACK - 1 - swings[i] <= MAX_BARS_SINCE {
        bestScore, r, best := ScanEarlier(c, series, swings, i, bestScore, r, best);
      }
      NextSwing(c, swings, i, best);
      i := i - 1;
    }
    AllScanned(c, swings, best);
    pair := best.GetOr(pair);
  }

  /** No qualifying pair ends at a swing and starts at or after it. */
  lemma AtOwnSwing(c: seq<Candle>, swings: seq<int>, i: nat, best: Option<(int, int)>)
    requires LongEnough(c) && IsSwingList(Window(c), swings) && 0 < i < |swings|
    requires BestBefore(c, swings[i], swings[i], best)
    ensures BestBefore(c, swings[i - 1], swings[i], best)
    ensures LOOKBACK - 1 - swings[i] > MAX_BARS_SINCE ==> BestBefore(c, -1, swings[i], best)
  {
  }

  lemma AllScanned(c: seq<Candle>, swings: seq<int>, best: Option<(int, int)>)
    requires LongEnough(c) && IsSwingList(Window(c), swings) && |swings| > 0
    requires BestBefore(c, swings[0], swings[0], best)
    ensures best.None? <==> forall a, b :: !Qualifies(c, a, b)
    ensures best.Some? ==> IsBest(c, best.value.0, best.value.1)
  {
  }

  // ---------------------------------------------------------------- in numbers

  /** A swing high stands out by 0.15 per cent over the higher of the candles three
      before and three after it, and none between is higher. */
  lemma SwingIff(w: seq<Candle>, i: int)
    requires 3 <= i < |w| - 3
    ensures var ref := if w[i - 3].high >= w[i + 3].high then w[i - 3].high else w[i + 3].high;
            IsSwing(w, i) <==> ((forall j :: i - 3 <= j <= i + 3 ==> w[j].high <= w[i].high)
                                && ref > 0.0 && (w[i].high - ref) * 100.0 >= 0.15 * ref)
  {
    var ref := Max(w[i - 3].high, w[i + 3].high);
    if ref > 0.0 {
      PercentAtLeast(w[i].high - ref, ref, 0.15);
    }
  }

  lemma PercentAtLeast(a: real, e: real, level: real)
    requires e > 0.0
    ensures a / e * 100.0 >= level <==> a * 100.0 >= level * e
  {
    var x := a / e;
    assert x * e == a;
    assert x * 100.0 * e == a * 100.0;
    if x * 100.0 >= level {
      assert (x * 100.0 - level) * e >= 0.0;
    } else {
      assert (level - x * 100.0) * e > 0.0;
    }
  }

  /** Two swings of the last 80 candles, the later among the last 16, make a pair
      exactly when the later has the higher price and the lower RSI peak, and the
      earlier peak is at least 50. */
  lemma QualifiesIff(c: seq<Candle>, a: int, b: int)
    requires LongEnough(c) && IsSwing(Window(c), a) && IsSwing(Window(c), b)
    ensures |Window(c)| == 80
    ensures Qualifies(c, a, b) <==> a < b && b >= 64
                                    && Window(c)[a].high < Window(c)[b].high
                                    && PeakAt(c, a) > PeakAt(c, b) && PeakAt(c, a) >= 50.0
  {
  }

  /** The score adds the price gain in per cent of the earlier high and the RSI
      points lost. */
  lemma ScoreIs(c: seq<Candle>, a: int, b: int)
    requires LongEnough(c) && Qualifies(c, a, b)
    ensures var pa, pb := Window(c)[a].high, Window(c)[b].high;
            (Score(c, a, b) - (PeakAt(c, a) - PeakAt(c, b))) * pa == (pb - pa) * 100.0
  {
    SwingPositive(Window(c), a);
    var pa, pb := Window(c)[a].high, Window(c)[b].high;
    hide Qualifies, IsSwing, PeakAt;
    PercentOfBase(pb - pa, pa);
  }

  lemma PercentOfBase(a: real, e: real)
    requires e > 0.0
    ensures a / e * 100.0 * e == a * 100.0
  {
    var x := a / e;
    assert x * e == a;
  }

  /** The peak at a window candle is the greatest 14-period RSI ending within three
      candles of it, in a series of at least 104 candles. */
  lemma PeakIsNearest(c: seq<Candle>, i: nat)
    requires LongEnough(c) && i < LOOKBACK
    ensures |c| >= 104
    ensures var g := |c| - 80 + i;
            && (exists k :: IntMax(14, g - 3) <= k <= g + 3 && k < |c| && RsiAt(c, 14, k) == PeakAt(c, i))
            && (forall k :: IntMax(14, g - 3) <= k <= g + 3 && k < |c| ==> RsiAt(c, 14, k) <= PeakAt(c, i))
  {
    var g := |c| - 80 + i;
    RsiPeakBounds(c, IntMax(14, g - 3), IntMin(|c|, g + 4));
  }

  /** A pair is strong exactly when two of these hold, weak when none does: the price
      gained a per cent, the RSI lost six points, the earlier peak is at least 75. */
  lemma StrengthIff(c: seq<Candle>, a: int, b: int)
    requires LongEnough(c) && Qualifies(c, a, b)
    ensures var pa, pb, ra, rb := Window(c)[a].high, Window(c)[b].high, PeakAt(c, a), PeakAt(c, b);
            var price, rsi, overbought := (pb - pa) * 100.0 >= pa, ra - rb >= 6.0, ra >= 75.0;
            && (PairRank(c, a, b) == Rank(STRONG) <==> (price && rsi) || (price && overbought) || (rsi && overbought))
            && (PairRank(c, a, b) == Rank(WEAK) <==> !price && !rsi && !overbought)
  {
    SwingPositive(Window(c), a);
    var pa, pb := Window(c)[a].high, Window(c)[b].high;
    PercentAtLeast(pb - pa, pa, 1.0);
    hide IsSwing, PeakAt;
  }
}
