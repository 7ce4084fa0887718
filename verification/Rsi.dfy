/** Wilder's RSI twice: internal/indicator/rsi.go computes one value,
    internal/indicator/rsi_divergence.go a series.  Both loops are proved against
    one definition, which depends only on the candles up to the one it ends at. */
module Rsi {
  import opened Options
  import opened Candles

  function Change(c: seq<Candle>, i: nat): real
    requires i + 1 < |c|
  {
    c[i + 1].close - c[i].close
  }

  function Gain(c: seq<Candle>, i: nat): real
    requires i + 1 < |c|
  {
    if Change(c, i) > 0.0 then Change(c, i) else 0.0
  }

  function Loss(c: seq<Candle>, i: nat): real
    requires i + 1 < |c|
  {
    if Change(c, i) > 0.0 then 0.0 else -Change(c, i)
  }

  function SumGain(c: seq<Candle>, n: nat): (r: real)
    requires n < |c|
    ensures r >= 0.0
  {
    if n == 0 then 0.0 else SumGain(c, n - 1) + Gain(c, n - 1)
  }

  function SumLoss(c: seq<Candle>, n: nat): (r: real)
    requires n < |c|
    ensures r >= 0.0
  {
    if n == 0 then 0.0 else SumLoss(c, n - 1) + Loss(c, n - 1)
  }

  function Smooth(avg: real, period: nat, x: real): (r: real)
    requires period > 0
    ensures avg >= 0.0 && x >= 0.0 ==> r >= 0.0
  {
    (avg * (period - 1) as real + x) / period as real
  }

  /** The smoothed averages after n changes. */
  function AvgGain(c: seq<Candle>, period: nat, n: nat): (r: real)
    requires 0 < period <= n < |c|
    ensures r >= 0.0
    decreases n
  {
    if n == period then SumGain(c, n) / period as real
    else Smooth(AvgGain(c, period, n - 1), period, Gain(c, n - 1))
  }

  function AvgLoss(c: seq<Candle>, period: nat, n: nat): (r: real)
    requires 0 < period <= n < |c|
    ensures r >= 0.0
    decreases n
  {
    if n == period then SumLoss(c, n) / period as real
    else Smooth(AvgLoss(c, period, n - 1), period, Loss(c, n - 1))
  }

  function Index(gain: real, loss: real): (r: real)
    requires gain >= 0.0 && loss >= 0.0
    ensures 0.0 <= r <= 100.0
  {
    if loss == 0.0 then 100.0
    else
      var rs := gain / loss;
      assert 0.0 < 100.0 / (1.0 + rs) <= 100.0 by { Shrinks(100.0, 1.0 + rs); }
      100.0 - 100.0 / (1.0 + rs)
  }

  lemma Shrinks(x: real, d: real)
    requires x > 0.0 && d >= 1.0
    ensures 0.0 < x / d <= x
  {
  }

  /** The RSI ending at candle n. */
  function RsiAt(c: seq<Candle>, period: nat, n: nat): (r: real)
    requires 0 < period <= n < |c|
    ensures 0.0 <= r <= 100.0
  {
    Index(AvgGain(c, period, n), AvgLoss(c, period, n))
  }

  /** What RSI returns; None is its error for too few candles. */
  function RsiOf(c: seq<Candle>, period: nat): Option<real>
    requires period > 0
  {
    if |c| < period + 1 then None else Some(RsiAt(c, period, |c| - 1))
  }

  lemma {:induction false} AveragesOfPrefix(c: seq<Candle>, period: nat, n: nat, m: nat)
    requires 0 < period <= n < m <= |c|
    ensures AvgGain(c[..m], period, n) == AvgGain(c, period, n)
    ensures AvgLoss(c[..m], period, n) == AvgLoss(c, period, n)
    decreases n
  {
    if n == period {
      SumsOfPrefix(c, n, m);
    } else {
      AveragesOfPrefix(c, period, n - 1, m);
    }
  }

  lemma {:induction false} SumsOfPrefix(c: seq<Candle>, n: nat, m: nat)
    requires n < m <= |c|
    ensures SumGain(c[..m], n) == SumGain(c, n)
    ensures SumLoss(c[..m], n) == SumLoss(c, n)
  {
    if n > 0 {
      SumsOfPrefix(c, n - 1, m);
    }
  }

  method ChangesOf(c: seq<Candle>) returns (changes: seq<real>)
    requires |c| > 0
    ensures |changes| == |c| - 1
    ensures forall i :: 0 <= i < |changes| ==> changes[i] == Change(c, i)
  {
    changes := [];
    for i := 1 to |c|
      invariant |changes| == i - 1
      invariant forall j :: 0 <= j < |changes| ==> changes[j] == Change(c, j)
    {
      changes := changes + [c[i].close - c[i - 1].close];
    }
  }

  method FirstAverages(c: seq<Candle>, period: nat, changes: seq<real>) returns (avgGain: real, avgLoss: real)
    requires 0 < period < |c| && |changes| == |c| - 1
    requires forall i :: 0 <= i < |changes| ==> changes[i] == Change(c, i)
    ensures avgGain == AvgGain(c, period, period) && avgLoss == AvgLoss(c, period, period)
  {
    avgGain, avgLoss := 0.0, 0.0;
    for i := 0 to period
      invariant avgGain == SumGain(c, i) && avgLoss == SumLoss(c, i)
    {
      if changes[i] > 0.0 {
        avgGain := avgGain + changes[i];
      } else {
        avgLoss := avgLoss + -changes[i];
      }
    }
    avgGain, avgLoss := avgGain / period as real, avgLoss / period as real;
  }

  /** rsi.go: one value over all the candles. */
  method RSI(c: seq<Candle>, period: nat) returns (r: Option<real>)
    requires period > 0
    ensures r == RsiOf(c, period)
  {
    if |c| < period + 1 {
      return None;
    }
    var changes := ChangesOf(c);
    var avgGain, avgLoss := FirstAverages(c, period, changes);
    for i := period to |changes|
      invariant avgGain == AvgGain(c, period, i) && avgLoss == AvgLoss(c, period, i)
    {
      if changes[i] > 0.0 {
        avgGain, avgLoss := Smooth(avgGain, period, changes[i]), Smooth(avgLoss, period, 0.0);
      } else {
        avgGain, avgLoss := Smooth(avgGain, period, 0.0), Smooth(avgLoss, period, -changes[i]);
      }
    }
    if avgLoss == 0.0 {
      return Some(100.0);
    }
    var rs := avgGain / avgLoss;
    return Some(100.0 - 100.0 / (1.0 + rs));
  }

  function Max(a: real, b: real): real { if a >= b then a else b }

  /** rsi_divergence.go: the whole series.  Entry k is what RSI returns for the
      candles up to and including candle period + k, and lies in [0, 100]. */
  method ComputeRSISeries(c: seq<Candle>, period: nat) returns (series: seq<real>)
    requires period > 0
    ensures |series| == if |c| < period + 1 then 0 else |c| - period
    ensures forall k :: 0 <= k < |series| ==> Some(series[k]) == RsiOf(c[..period + 1 + k], period)
    ensures forall k :: 0 <= k < |series| ==> series[k] == RsiAt(c, period, period + k)
    ensures forall k :: 0 <= k < |series| ==> 0.0 <= series[k] <= 100.0
  {
    if |c| < period + 1 {
      return [];
    }
    var changes := ChangesOf(c);
    var avgGain, avgLoss := FirstAverages(c, period, changes);
    series := [if avgLoss == 0.0 then 100.0 else 100.0 - 100.0 / (1.0 + avgGain / avgLoss)];
    for i := period to |changes|
      invariant avgGain == AvgGain(c, period, i) && avgLoss == AvgLoss(c, period, i)
      invariant |series| == i - period + 1
      invariant forall k :: 0 <= k < |series| ==> series[k] == RsiAt(c, period, period + k)
    {
      var gain, loss := Max(changes[i], 0.0), Max(-changes[i], 0.0);
      avgGain, avgLoss := Smooth(avgGain, period, gain), Smooth(avgLoss, period, loss);
      series := series + [if avgLoss == 0.0 then 100.0 else 100.0 - 100.0 / (1.0 + avgGain / avgLoss)];
    }
    forall k | 0 <= k < |series|
      ensures Some(series[k]) == RsiOf(c[..period + 1 + k], period)
    {
      AveragesOfPrefix(c, period, period + k, period + 1 + k);
    }
  }
}
