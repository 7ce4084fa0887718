/** The quantities that reach the exchange: internal/execution/live_executor.go
    rounds each order down to the symbol's lot step. */
module LotSize {
  import opened Rounding
  import S = PositionSpec

  lemma FloorOfMultiple(k: int, step: real)
    requires step > 0.0
    ensures (k as real * step / step).Floor == k
  {
    assert k as real * step / step == k as real;
  }

  lemma WholeAndPart(value: real, step: real) returns (k: int, f: real)
    requires step > 0.0
    ensures 0.0 <= f < 1.0
    ensures RoundDown(value, step) == k as real * step
    ensures value == k as real * step + f * step
  {
    var x := value / step;
    k, f := x.Floor, x - x.Floor as real;
    assert x * step == value;
    assert (k as real + f) * step == k as real * step + f * step;
  }

  /** Rounding down loses less than a step, never gains, and is idempotent. */
  lemma RoundDownLosesUnderAStep(value: real, step: real)
    requires step > 0.0
    ensures 0.0 <= value - RoundDown(value, step) < step
    ensures RoundDown(RoundDown(value, step), step) == RoundDown(value, step)
  {
    var k, f := WholeAndPart(value, step);
    Scaled(f, step);
    assert value - RoundDown(value, step) == f * step;
    FloorOfMultiple(k, step);
    assert RoundDown(k as real * step, step) == k as real * step;
  }

  lemma Scaled(f: real, step: real)
    requires step > 0.0 && 0.0 <= f < 1.0
    ensures 0.0 <= f * step < step
  {
    assert (1.0 - f) * step > 0.0;
  }

  predicate IsLots(qty: real, step: real)
    requires step > 0.0
  {
    (qty / step).Floor as real == qty / step
  }

  lemma FloorsSplit(x: real, n: int)
    ensures x.Floor + (n as real - x).Floor == if x.Floor as real == x then n else n - 1
  {
  }

  /** Two parts of whole lots, rounded, make up the whole or one lot less. */
  lemma PartsCover(whole: real, part: real, step: real)
    requires step > 0.0 && IsLots(whole, step)
    ensures var a, b := RoundDown(part, step), RoundDown(whole - part, step);
            a + b <= whole && (whole - (a + b) == if IsLots(part, step) then 0.0 else step)
  {
    var n, x := (whole / step).Floor, part / step;
    assert whole / step * step == whole;
    assert x * step == part;
    assert (whole - part) / step == n as real - x;
    FloorsSplit(x, n);
    var a, b := x.Floor as real, (n as real - x).Floor as real;
    assert a * step + b * step == (a + b) * step;
  }

  /** The take-profits an entry leaves at the exchange are TP1's share and the rest.
      Rounded to lots they never ask for more than was filled; they leave one lot
      unexited exactly when the share is not a whole number of lots, else nothing. */
  lemma TakeProfitsCoverFill(c: S.Config, s: S.State, pe: S.PendingEntry, entry: real, filled: real, openedAt: int, step: real)
    requires step > 0.0 && IsLots(filled, step) && filled != 0.0 && s.ex.NoMoreFailures()
    ensures var s' := S.FinalizeSLTP(c, s, pe, entry, filled, openedAt);
            && s'.position.Some?
            && var p, open := s'.position.value, s'.ex.open;
            && p.tpOrderId in open && p.tp2OrderId in open && open[p.tpOrderId].Limit? && open[p.tp2OrderId].Limit?
            && var tp1, tp2 := open[p.tpOrderId].qty, open[p.tp2OrderId].qty;
            && tp1 == filled * c.tp1SizePct / 100.0 && tp1 + tp2 == filled
            && RoundDown(tp1, step) + RoundDown(tp2, step) <= filled
            && filled - (RoundDown(tp1, step) + RoundDown(tp2, step)) == if IsLots(tp1, step) then 0.0 else step
  {
    var k := s.ex.calls;
    assert k !in s.ex.failing && k + 1 !in s.ex.failing && k + 2 !in s.ex.failing;
    assert filled * (c.tp1SizePct / 100.0) == filled * c.tp1SizePct / 100.0;
    PartsCover(filled, S.TP1Qty(c, filled), step);
    hide RoundDown, IsLots;
  }
}
