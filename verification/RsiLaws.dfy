/** What the value RSI returns says about the closes. */
module RsiLaws {
  import opened Options
  import opened Candles
  import opened Rsi

  predicate Rises(c: seq<Candle>, i: int) {
    0 <= i < |c| - 1 && c[i + 1].close > c[i].close
  }

  predicate Falls(c: seq<Candle>, i: int) {
    0 <= i < |c| - 1 && c[i + 1].close < c[i].close
  }

  /** A change the averages still hold: with period 1 only the last one. */
  predicate Counts(c: seq<Candle>, period: nat, i: int) {
    period > 1 || i == |c| - 2
  }

  // ---------------------------------------------------------------- the averages

  lemma {:induction false} AvgLossPositiveIff(c: seq<Candle>, period: nat, n: nat)
    requires 0 < period <= n < |c|
    ensures AvgLoss(c, period, n) > 0.0 <==> exists i :: 0 <= i < n && Falls(c, i) && (period > 1 || i == n - 1)
    decreases n
  {
    if n == period {
      SumLossPositiveIff(c, n);
      DividedPositive(SumLoss(c, n), period);
    } else {
      AvgLossPositiveIff(c, period, n - 1);
      SmoothPositive(AvgLoss(c, period, n - 1), period, Loss(c, n - 1));
      assert Loss(c, n - 1) > 0.0 <==> Falls(c, n - 1);
    }
  }

  lemma {:induction false} SumLossPositiveIff(c: seq<Candle>, n: nat)
    requires n < |c|
    ensures SumLoss(c, n) > 0.0 <==> exists i :: 0 <= i < n && Falls(c, i)
  {
    if n > 0 {
      SumLossPositiveIff(c, n - 1);
      assert Loss(c, n - 1) > 0.0 <==> Falls(c, n - 1);
    }
  }

  lemma DividedPositive(x: real, period: nat)
    requires period > 0 && x >= 0.0
    ensures x / period as real > 0.0 <==> x > 0.0
  {
    assert x / period as real * period as real == x;
  }

  lemma SmoothPositive(avg: real, period: nat, x: real)
    requires period > 0 && avg >= 0.0 && x >= 0.0
    ensures Smooth(avg, period, x) > 0.0 <==> (period > 1 && avg > 0.0) || x > 0.0
  {
    var w := (period - 1) as real;
    assert avg * w >= 0.0;
    if period > 1 && avg > 0.0 {
      assert avg * w > 0.0;
    } else if period == 1 {
      assert avg * w == 0.0;
    }
    DividedPositive(avg * w + x, period);
  }

  /** Two series whose rises and falls are exchanged. */
  predicate Mirrored(c: seq<Candle>, d: seq<Candle>) {
    |c| == |d| && forall i :: 0 <= i < |c| - 1 ==> d[i + 1].close - d[i].close == c[i].close - c[i + 1].close
  }

  lemma {:induction false} MirroredAverages(c: seq<Candle>, d: seq<Candle>, period: nat, n: nat)
    requires Mirrored(c, d) && 0 < period <= n < |c|
    ensures AvgGain(d, period, n) == AvgLoss(c, period, n) && AvgLoss(d, period, n) == AvgGain(c, period, n)
    decreases n
  {
    if n == period {
      MirroredSums(c, d, n);
    } else {
      MirroredAverages(c, d, period, n - 1);
    }
  }

  lemma {:induction false} MirroredSums(c: seq<Candle>, d: seq<Candle>, n: nat)
    requires Mirrored(c, d) && n < |c|
    ensures SumGain(d, n) == SumLoss(c, n) && SumLoss(d, n) == SumGain(c, n)
  {
    if n > 0 {
      MirroredSums(c, d, n - 1);
    }
  }

  function Reflect(c: seq<Candle>, k: real): (d: seq<Candle>)
    ensures |d| == |c| && forall i :: 0 <= i < |c| ==> d[i].close == k - c[i].close
  {
    seq(|c|, i requires 0 <= i < |c| => c[i].(close := k - c[i].close))
  }

  lemma ReflectMirrors(c: seq<Candle>, k: real)
    ensures Mirrored(c, Reflect(c, k))
  {
  }

  lemma AvgGainPositiveIff(c: seq<Candle>, period: nat, n: nat)
    requires 0 < period <= n < |c|
    ensures AvgGain(c, period, n) > 0.0 <==> exists i :: 0 <= i < n && Rises(c, i) && (period > 1 || i == n - 1)
  {
    var d := Reflect(c, 0.0);
    MirroredAverages(c, d, period, n);
    AvgLossPositiveIff(d, period, n);
    assert forall i :: Rises(c, i) <==> Falls(d, i);
  }

  // ---------------------------------------------------------------- the index

  lemma IndexIs(gain: real, loss: real)
    requires gain >= 0.0 && loss > 0.0
    ensures Index(gain, loss) * (gain + loss) == 100.0 * gain
  {
    var rs := gain / loss;
    var x := 100.0 / (1.0 + rs);
    assert rs * loss == gain;
    assert x * (1.0 + rs) == 100.0;
    assert x * (gain + loss) == 100.0 * loss by {
      assert x * (gain + loss) == x * (1.0 + rs) * loss;
    }
  }

  lemma IndexMonotone(g: real, l: real, g': real, l': real)
    requires 0.0 <= g <= g' && 0.0 <= l' <= l
    ensures Index(g, l) <= Index(g', l')
  {
    if l' > 0.0 {
      var a, b := Index(g, l), Index(g', l');
      IndexIs(g, l);
      IndexIs(g', l');
      Cross(g, l', g', l);
      Quotients(a, g, g + l, b, g', g' + l');
    }
  }

  /** a and b are 100 g / s and 100 g' / s'. */
  lemma Quotients(a: real, g: real, s: real, b: real, g': real, s': real)
    requires s > 0.0 && s' > 0.0 && a * s == 100.0 * g && b * s' == 100.0 * g' && g * s' <= g' * s
    ensures a <= b
  {
    var t := s * s';
    assert t > 0.0;
    assert a * t == a * s * s' == 100.0 * (g * s');
    assert b * t == b * s' * s == 100.0 * (g' * s);
    Cancel(a, b, t);
  }

  lemma Cancel(a: real, b: real, t: real)
    requires t > 0.0 && a * t <= b * t
    ensures a <= b
  {
  }

  lemma Cross(g: real, l': real, g': real, l: real)
    requires 0.0 <= g <= g' && 0.0 <= l' <= l
    ensures g * (g' + l') <= g' * (g + l)
  {
    assert g * l' <= g' * l' <= g' * l;
  }

  // ---------------------------------------------------------------- the laws

  /** Without a falling close the value is 100; without a rising one it is 0 exactly
      when a fall counts, else 100. */
  lemma OneSided(c: seq<Candle>, period: nat)
    requires 0 < period < |c|
    ensures (forall i :: !Falls(c, i)) ==> RsiOf(c, period) == Some(100.0)
    ensures (forall i :: !Rises(c, i)) ==>
              RsiOf(c, period) == Some(if exists i :: Falls(c, i) && Counts(c, period, i) then 0.0 else 100.0)
  {
    var n := |c| - 1;
    AvgLossPositiveIff(c, period, n);
    AvgGainPositiveIff(c, period, n);
    if (forall i :: !Rises(c, i)) && AvgLoss(c, period, n) > 0.0 {
      IndexIs(AvgGain(c, period, n), AvgLoss(c, period, n));
      ZeroFactor(Index(AvgGain(c, period, n), AvgLoss(c, period, n)), AvgLoss(c, period, n));
      var i :| 0 <= i < n && Falls(c, i) && (period > 1 || i == n - 1);
      assert Falls(c, i) && Counts(c, period, i);
    }
  }

  lemma ZeroFactor(x: real, y: real)
    requires y > 0.0 && x * y == 0.0
    ensures x == 0.0
  {
  }

  /** Reflecting every close gives 100 less the value, when a rise and a fall count. */
  lemma ReflectionComplements(c: seq<Candle>, period: nat, k: real, rise: int, fall: int)
    requires 0 < period < |c|
    requires Rises(c, rise) && Counts(c, period, rise) && Falls(c, fall) && Counts(c, period, fall)
    ensures RsiOf(c, period).Some? && RsiOf(Reflect(c, k), period) == Some(100.0 - RsiOf(c, period).value)
  {
    var n := |c| - 1;
    hide Index, AvgGain, AvgLoss;
    ReflectMirrors(c, k);
    MirroredAverages(c, Reflect(c, k), period, n);
    AvgLossPositiveIff(c, period, n);
    AvgGainPositiveIff(c, period, n);
    Complement(AvgGain(c, period, n), AvgLoss(c, period, n));
  }

  lemma Complement(g: real, l: real)
    requires g > 0.0 && l > 0.0
    ensures Index(l, g) == 100.0 - Index(g, l)
  {
    IndexIs(g, l);
    IndexIs(l, g);
    hide Index;
    assert (Index(g, l) + Index(l, g) - 100.0) * (g + l) == 0.0;
    ZeroFactor(Index(g, l) + Index(l, g) - 100.0, g + l);
  }

  /** Same closes but for the last. */
  predicate SameButLast(c: seq<Candle>, d: seq<Candle>) {
    |c| == |d| && forall i :: 0 <= i < |c| - 1 ==> d[i].close == c[i].close
  }

  lemma {:induction false} SameEarlier(c: seq<Candle>, d: seq<Candle>, period: nat, n: nat)
    requires SameButLast(c, d) && 0 < period && n < |c| - 1
    ensures SumGain(d, n) == SumGain(c, n) && SumLoss(d, n) == SumLoss(c, n)
    ensures n >= period ==> AvgGain(d, period, n) == AvgGain(c, period, n) && AvgLoss(d, period, n) == AvgLoss(c, period, n)
    decreases n
  {
    if n > 0 {
      SameEarlier(c, d, period, n - 1);
    }
  }

  /** The last change enters its average with weight 1 / period. */
  lemma LastChangeWeighs(c: seq<Candle>, d: seq<Candle>, period: nat)
    requires SameButLast(c, d) && 0 < period < |c|
    ensures var n := |c| - 1;
            && AvgGain(d, period, n) - AvgGain(c, period, n) == (Gain(d, n - 1) - Gain(c, n - 1)) / period as real
            && AvgLoss(d, period, n) - AvgLoss(c, period, n) == (Loss(d, n - 1) - Loss(c, n - 1)) / period as real
  {
    var n := |c| - 1;
    SameEarlier(c, d, period, n - 1);
    if n == period {
      DividedDifference(SumGain(d, n), SumGain(c, n), period);
      DividedDifference(SumLoss(d, n), SumLoss(c, n), period);
      assert SumGain(d, n) - SumGain(c, n) == Gain(d, n - 1) - Gain(c, n - 1);
      assert SumLoss(d, n) - SumLoss(c, n) == Loss(d, n - 1) - Loss(c, n - 1);
      hide SumGain, SumLoss, Gain, Loss;
    } else {
      SmoothDifference(AvgGain(c, period, n - 1), period, Gain(d, n - 1), Gain(c, n - 1));
      SmoothDifference(AvgLoss(c, period, n - 1), period, Loss(d, n - 1), Loss(c, n - 1));
      hide Smooth, Gain, Loss;
    }
  }

  lemma SmoothDifference(avg: real, period: nat, x: real, y: real)
    requires period > 0
    ensures Smooth(avg, period, x) - Smooth(avg, period, y) == (x - y) / period as real
  {
    var w := avg * (period - 1) as real;
    DividedDifference(w + x, w + y, period);
  }

  lemma DividedDifference(x: real, y: real, period: nat)
    requires period > 0
    ensures x / period as real - y / period as real == (x - y) / period as real
  {
  }

  /** Raising the last close never lowers the value. */
  lemma HigherCloseNotLower(c: seq<Candle>, d: seq<Candle>, period: nat)
    requires SameButLast(c, d) && 0 < period < |c| && d[|d| - 1].close >= c[|c| - 1].close
    ensures RsiOf(c, period).Some? && RsiOf(d, period).Some? && RsiOf(d, period).value >= RsiOf(c, period).value
  {
    var n := |c| - 1;
    LastChangeWeighs(c, d, period);
    DividedNotNegative(Gain(d, n - 1) - Gain(c, n - 1), period);
    DividedNotNegative(Loss(c, n - 1) - Loss(d, n - 1), period);
    DividedDifference(Loss(d, n - 1), Loss(c, n - 1), period);
    DividedDifference(Loss(c, n - 1), Loss(d, n - 1), period);
    IndexMonotone(AvgGain(c, period, n), AvgLoss(c, period, n), AvgGain(d, period, n), AvgLoss(d, period, n));
  }

  lemma DividedNotNegative(x: real, period: nat)
    requires period > 0 && x >= 0.0
    ensures x / period as real >= 0.0
  {
  }

  /** The weights sum to one: a change that recurs throughout is its own average. */
  lemma {:induction false} SteadyAverage(c: seq<Candle>, period: nat, n: nat, gain: real, loss: real)
    requires 0 < period <= n < |c|
    requires forall i :: 0 <= i < n ==> Gain(c, i) == gain && Loss(c, i) == loss
    ensures AvgGain(c, period, n) == gain && AvgLoss(c, period, n) == loss
    decreases n
  {
    if n == period {
      SteadySum(c, n, gain, loss);
      DividedBack(gain, n);
      DividedBack(loss, n);
      hide SumGain, SumLoss;
    } else {
      SteadyAverage(c, period, n - 1, gain, loss);
      SmoothSteady(gain, period);
      SmoothSteady(loss, period);
      hide Smooth;
    }
  }

  lemma DividedBack(x: real, n: nat)
    requires n > 0
    ensures x * n as real / n as real == x
  {
  }

  lemma SmoothSteady(x: real, period: nat)
    requires period > 0
    ensures Smooth(x, period, x) == x
  {
    assert x * (period - 1) as real + x == x * period as real;
  }

  lemma {:induction false} SteadySum(c: seq<Candle>, n: nat, gain: real, loss: real)
    requires n < |c| && forall i :: 0 <= i < n ==> Gain(c, i) == gain && Loss(c, i) == loss
    ensures SumGain(c, n) == gain * n as real && SumLoss(c, n) == loss * n as real
  {
    if n > 0 {
      SteadySum(c, n - 1, gain, loss);
    }
  }

  /** One more candle at the same close leaves the value as it was, exactly unless
      the period is 1 and the value was below 100. */
  lemma UnchangedCloseKeepsIff(c: seq<Candle>, x: Candle, period: nat)
    requires 0 < period < |c| && x.close == c[|c| - 1].close
    ensures RsiOf(c + [x], period) == RsiOf(c, period) <==> period > 1 || RsiOf(c, period) == Some(100.0)
  {
    var n, d := |c| - 1, c + [x];
    assert d[..|c|] == c;
    AveragesOfPrefix(d, period, n, |c|);
    var g, l := AvgGain(c, period, n), AvgLoss(c, period, n);
    var g', l' := Smooth(g, period, 0.0), Smooth(l, period, 0.0);
    assert RsiOf(c, period) == Some(Index(g, l));
    assert RsiOf(d, period) == Some(Index(g', l')) by {
      assert AvgGain(d, period, n + 1) == g' && AvgLoss(d, period, n + 1) == l';
    }
    SmoothedIndex(g, l, period);
  }

  lemma SmoothedIndex(g: real, l: real, period: nat)
    requires g >= 0.0 && l >= 0.0 && period > 0
    ensures Index(Smooth(g, period, 0.0), Smooth(l, period, 0.0)) == Index(g, l) <==> period > 1 || Index(g, l) == 100.0
  {
    SmoothPositive(l, period, 0.0);
    if l > 0.0 {
      BelowHundred(g, l);
      if period > 1 {
        SmoothNothing(g, period);
        SmoothNothing(l, period);
        SameRatio(g, l, (period - 1) as real / period as real);
      }
    }
    hide Smooth;
  }

  lemma BelowHundred(gain: real, loss: real)
    requires gain >= 0.0 && loss > 0.0
    ensures Index(gain, loss) < 100.0
  {
    IndexIs(gain, loss);
  }

  lemma SmoothNothing(avg: real, period: nat)
    requires period > 0
    ensures Smooth(avg, period, 0.0) == avg * ((period - 1) as real / period as real)
  {
    var w, p := (period - 1) as real, period as real;
    assert w / p * p == w;
    assert avg * (w / p) * p == avg * w;
  }

  lemma SameRatio(g: real, l: real, f: real)
    requires g >= 0.0 && l > 0.0 && f > 0.0
    ensures g * f >= 0.0 && l * f > 0.0 && Index(g * f, l * f) == Index(g, l)
  {
    assert g * f / (l * f) == g / l by {
      assert g / l * (l * f) == g * f;
    }
  }
}
