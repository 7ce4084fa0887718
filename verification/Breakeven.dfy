/** When the 1s check moves the stop to breakeven, in prices. */
module Breakeven {
  import opened Options
  import opened PositionSpec
  import O = OpenOrders
  import L = StopLoss

  const TEN_MINUTES: int := 10 * 60 * 1_000_000_000

  /** The share of the entry price paid as a settlement fee. */
  function FeeShare(p: Position): real {
    if p.feePaid then p.feePaidPct else 0.0
  }

  /** The gain is a greater percentage of the entry price than the activation level
      plus the fee paid. */
  predicate GainExceeds(c: Config, p: Position, price: real) {
    (p.entryPrice - price) * 100.0 > (c.breakevenActivationPct + FeeShare(p) * 100.0) * p.entryPrice
  }

  lemma RatioAbove(a: real, e: real, level: real)
    requires e > 0.0
    ensures a / e * 100.0 > level <==> a * 100.0 > level * e
  {
    var x := a / e;
    assert x * e == a;
    assert x * 100.0 * e == a * 100.0;
    if x * 100.0 > level {
      assert (x * 100.0 - level) * e > 0.0;
    } else {
      assert (level - x * 100.0) * e >= 0.0;
    }
  }

  /** The stop was moved by this check, and rests at the entry price less the fee. */
  predicate MovedNow(p: Position, s': State) {
    && s'.position.Some?
    && var q := s'.position.value;
    && q.breakevenMoved && !p.breakevenMoved && q.stopLoss == p.entryPrice
    && q.slOrderId in s'.ex.open
    && s'.ex.open[q.slOrderId] == Stop(p.entryPrice - FeeShare(p) * p.entryPrice)
  }

  /** A check of a matching short, without record, force close or failing call:
      the stop moves exactly when it had not moved, TP1 has not filled, ten minutes
      have passed and the gain exceeds the level; otherwise no order is touched. */
  lemma StopMovesIff(c: Config, s: State, price: real, now: int, d: Decision)
    requires O.Matched(s) && s.ex.NoMoreFailures() && s.protection.None?
    requires s.position.Some? && s.position.value.entryPrice > 0.0 && price != 0.0 && !d.ForceClose?
    ensures var p, s' := s.position.value, Check(c, s, Some(price), now, d);
            var due := !p.breakevenMoved && !p.tp1Filled && now - p.openedAt >= TEN_MINUTES && GainExceeds(c, p, price);
            && (MovedNow(p, s') <==> due)
            && (!due ==> s'.ex == s.ex)
            && (due ==> p.slOrderId !in s'.ex.open)
  {
    var p := s.position.value;
    var q := L.CheckMoves(c, s, price, now, d);
    RatioAbove(p.entryPrice - price, p.entryPrice, c.breakevenActivationPct + FeeShare(p) * 100.0);
    assert s.ex.calls !in s.ex.failing && s.ex.calls + 1 !in s.ex.failing;
    hide Check;
  }

  /** So with an activation level of zero or more, a short that is not winning keeps
      its stop where it is. */
  lemma LosingShortKeepsStop(c: Config, s: State, price: real, now: int, d: Decision)
    requires O.Matched(s) && s.ex.NoMoreFailures() && s.protection.None?
    requires s.position.Some? && s.position.value.entryPrice > 0.0 && price != 0.0 && !d.ForceClose?
    requires c.breakevenActivationPct + FeeShare(s.position.value) * 100.0 >= 0.0 && price >= s.position.value.entryPrice
    ensures Check(c, s, Some(price), now, d).ex == s.ex
  {
    StopMovesIff(c, s, price, now, d);
    var level, e := c.breakevenActivationPct + FeeShare(s.position.value) * 100.0, s.position.value.entryPrice;
    assert level * e >= 0.0;
  }
}
