/** When a position is left without a stop: a failed breakeven stop after TP1 is
    never placed again, a failed breakeven move is. */
module StopLoss {
  import opened Options
  import opened PositionSpec
  import opened Lifecycle
  import O = OpenOrders

  function Stops(ex: Exchange): set<OrderId> {
    set id | id in ex.open && ex.open[id].Stop?
  }

  /** A cached position with neither a stop at the exchange nor a protection record. */
  predicate Bare(s: State) {
    s.position.Some? && s.protection.None? && Stops(s.ex) == {}
  }

  /** No force close, and no entry confirmed. */
  predicate Quiet(t: Timed) {
    match t.event
    case Tick(_, d) => !d.ForceClose?
    case EntryFill(_, _, _, _) => false
    case Other(u) => !u.marketSell
    case _ => true
  }

  /** A quiet run throughout which the position stays cached. */
  predicate StaysCached(c: Config, y: System, run: seq<Timed>)
    decreases |run|
  {
    run != [] ==>
      && Quiet(run[0])
      && Step(c, y, run[0]).st.position.Some?
      && StaysCached(c, Step(c, y, run[0]), run[1..])
  }

  // ---------------------------------------------------------------- after TP1

  /** Past TP1: TP2 is out, the take-profit ids are set, no record. */
  predicate PastTP1(s: State) {
    && s.protection.None?
    && s.position.Some?
    && var p := s.position.value;
    && p.tp1Filled && p.slOrderId == NO_ORDER && p.trailingOrderId == NO_ORDER
    && NO_ORDER !in s.ex.open
    && NO_ORDER != p.tpOrderId
    && (p.tpOrderId in s.ex.open ==> !s.ex.open[p.tpOrderId].Stop?)
  }

  lemma CheckPastTP1(c: Config, s: State, market: Option<real>, now: int, d: Decision)
    requires PastTP1(s) && !d.ForceClose?
    ensures PastTP1(Check(c, s, market, now, d)) && Check(c, s, market, now, d).ex == s.ex
  {
    hide PnlAbove, PnlBelow, BreakevenPrice;
  }

  lemma FillPastTP1(c: Config, s: State, u: OrderUpdate, now: int)
    requires PastTP1(s) && !u.marketSell && HandleUpdate(c, s, u, now).position.Some?
    ensures HandleUpdate(c, s, u, now) == s
    ensures u.clientId in s.ex.open && u.filled && u.reduceOnly ==> u.clientId == s.position.value.tpOrderId
  {
    hide AvgClosePrice, PnlAt, FinalPnl;
  }

  lemma StepPastTP1(c: Config, y: System, t: Timed)
    requires PastTP1(y.st) && Quiet(t) && Step(c, y, t).st.position.Some?
    ensures PastTP1(Step(c, y, t).st) && Stops(Step(c, y, t).st.ex) == Stops(y.st.ex)
  {
    hide Check, HandleUpdate;
    var s := AdvanceClock(y, t.now).st;
    match t.event {
      case Tick(market, d) => CheckPastTP1(c, s, market, t.now, d);
      case Fill(id, price, qty) =>
        FillPastTP1(c, AfterFill(s, id), FillUpdate(id, price, qty), t.now);
        FillLeftCached(c, s, id, price, qty, t.now);
      case Other(u) => FillPastTP1(c, s, u, t.now);
      case _ =>
    }
  }

  /** An order whose fill closes nothing is no stop. */
  lemma FillLeftCached(c: Config, s: State, id: OrderId, price: real, qty: real, now: int)
    requires PastTP1(s) && HandleUpdate(c, AfterFill(s, id), FillUpdate(id, price, qty), now).position.Some?
    ensures id in s.ex.open ==> !s.ex.open[id].Stop?
  {
    hide AvgClosePrice, PnlAt, FinalPnl;
  }

  lemma {:induction false} RunPastTP1(c: Config, y: System, run: seq<Timed>)
    requires PastTP1(y.st) && StaysCached(c, y, run)
    ensures PastTP1(Run(c, y, run).st) && Stops(Run(c, y, run).st.ex) == Stops(y.st.ex)
    decreases |run|
  {
    hide PastTP1, Step;
    if run != [] {
      StepPastTP1(c, y, run[0]);
      RunPastTP1(c, Step(c, y, run[0]), run[1..]);
    }
  }

  /** TP1's fill from a matching state with TP2 resting cancels the stop with call n
      and places the breakeven stop with call n + 1. */
  lemma TP1Stop(c: Config, s: State, price: real, qty: real)
    requires O.Matched(s) && s.protection.None? && s.position.Some? && !s.position.value.tp1Filled
    requires s.position.value.tpOrderId in s.ex.open && s.position.value.tp2OrderId != NO_ORDER
    ensures var n, s' := s.ex.calls, TP1Fill(c, AfterFill(s, s.position.value.tpOrderId), s.position.value, price, qty);
            && PastTP1(s')
            && (Stops(s'.ex) != {} <==> n in s.ex.failing || n + 1 !in s.ex.failing)
  {
    var p, n := s.position.value, s.ex.calls;
    var s' := TP1Fill(c, AfterFill(s, p.tpOrderId), p, price, qty);
    assert p.slOrderId in Stops(s.ex);
    if n + 1 !in s.ex.failing {
      assert n + 2 in Stops(s'.ex);
    } else if n in s.ex.failing {
      assert p.slOrderId in Stops(s'.ex);
    }
  }

  /** So the two calls decide for good: as long as the position stays cached without
      a force close, whatever other checks, sweeps and events follow and whatever
      else fails, it has neither stop nor record exactly when the old stop was
      cancelled and the new one not placed. */
  lemma TP1StopDecidesForGood(c: Config, y: System, t: Timed, run: seq<Timed>)
    requires O.Matched(y.st) && y.st.protection.None? && y.st.position.Some? && !y.st.position.value.tp1Filled
    requires y.st.position.value.tpOrderId in y.st.ex.open && y.st.position.value.tp2OrderId != NO_ORDER
    requires t.event.Fill? && t.event.id == y.st.position.value.tpOrderId && StaysCached(c, Step(c, y, t), run)
    ensures Bare(Run(c, Step(c, y, t), run).st)
       <==> y.st.ex.calls !in y.st.ex.failing && y.st.ex.calls + 1 in y.st.ex.failing
  {
    var y0 := AdvanceClock(y, t.now);
    TP1Stop(c, y0.st, t.event.price, t.event.qty);
    TP1Step(c, y, t);
    hide Step, PastTP1;
    RunPastTP1(c, Step(c, y, t), run);
    PastTP1Cached(Run(c, Step(c, y, t), run).st);
  }

  lemma PastTP1Cached(s: State)
    requires PastTP1(s)
    ensures s.position.Some? && s.protection.None?
  {
  }

  lemma TP1Step(c: Config, y: System, t: Timed)
    requires t.event.Fill? && y.st.position.Some? && t.event.id == y.st.position.value.tpOrderId
    requires !y.st.position.value.tp1Filled
    ensures var s := AdvanceClock(y, t.now).st;
            Step(c, y, t).st == TP1Fill(c, AfterFill(s, t.event.id), s.position.value, t.event.price, t.event.qty)
  {
    hide TP1Fill;
  }

  function Entering(y: System, pe: PendingEntry, entry: real, qty: real): seq<Timed> {
    [At(y.clock, Enter(pe)), At(y.clock, EntryFill(pe.tradeId, entry, qty, y.clock))]
  }

  lemma OpensMatched(c: Config, s: State, pe: PendingEntry, entry: real, qty: real, at: int)
    requires s.ex.open == map[] && s.position.None? && s.protection.None?
    requires forall n :: s.ex.calls <= n < s.ex.calls + 3 ==> n !in s.ex.failing
    ensures var k, s' := s.ex.calls, FinalizeSLTP(c, s, pe, entry, qty, at);
            && O.Matched(s') && s'.protection.None? && s'.position.Some?
            && s'.ex.calls == k + 3 && s'.ex.failing == s.ex.failing && k + 2 in s'.ex.open
            && var p := s'.position.value; !p.tp1Filled && p.tpOrderId == k + 2 && p.tp2OrderId != NO_ORDER
  {
    var k := s.ex.calls;
    assert k !in s.ex.failing && k + 1 !in s.ex.failing && k + 2 !in s.ex.failing;
  }

  lemma EnteringReached(c: Config, y: System, pe: PendingEntry, entry: real, qty: real)
    requires Idle(y) && y.st.ex.failing == {y.st.ex.calls + 5} && pe.tradeId != NIL_TRADE && entry != 0.0
    requires y.clock < pe.expiresAt
    ensures var k, y' := y.st.ex.calls, Run(c, y, Entering(y, pe, entry, qty));
            && O.Matched(y'.st) && y'.st.protection.None? && y'.st.position.Some? && y'.clock == y.clock
            && y'.st.ex.calls == k + 4 && y'.st.ex.failing == {k + 5} && k + 3 in y'.st.ex.open
            && var p := y'.st.position.value; !p.tp1Filled && p.tpOrderId == k + 3 && p.tp2OrderId != NO_ORDER
  {
    hide FinalizeSLTP, O.Matched;
    RunTwo(c, y, Entering(y, pe, entry, qty)[0], Entering(y, pe, entry, qty)[1]);
    var y1 := Step(c, y, Entering(y, pe, entry, qty)[0]);
    assert y1.st.ex.calls == y.st.ex.calls + 1 && y1.st.pending == map[pe.tradeId := pe];
    OpensMatched(c, AdvanceClock(y1, y.clock).st, pe, entry, qty, y.clock);
  }

  /** And it occurs: one failing call, the fifth after the entry order, and the
      remainder of the position has no stop from TP1's fill on. */
  lemma BareReached(c: Config, y: System, pe: PendingEntry, entry: real, qty: real)
    requires Idle(y) && y.st.ex.failing == {y.st.ex.calls + 5} && pe.tradeId != NIL_TRADE && entry != 0.0
    requires y.clock < pe.expiresAt
    ensures Bare(Run(c, y, Entering(y, pe, entry, qty) + [At(y.clock, Fill(y.st.ex.calls + 3, entry, 0.0))]).st)
  {
    hide Run, Step, O.Matched, Bare, StaysCached, PastTP1, Idle;
    var e, y1 := At(y.clock, Fill(y.st.ex.calls + 3, entry, 0.0)), Run(c, y, Entering(y, pe, entry, qty));
    EnteringReached(c, y, pe, entry, qty);
    StaysAtOnce(c, Step(c, y1, e));
    TP1StopDecidesForGood(c, y1, e, []);
    RunJoin(c, y, Entering(y, pe, entry, qty), [e]);
    RunCons(c, y1, e, []);
    assert [e] + [] == [e];
  }

  lemma StaysAtOnce(c: Config, y: System)
    ensures StaysCached(c, y, [])
  {
  }

  // ---------------------------------------------------------------- the breakeven move

  /** What the breakeven condition looks at. */
  predicate SameForBreakeven(p: Position, q: Position) {
    && O.SameOrders(p, q) && q.entryPrice == p.entryPrice
    && q.feePaid == p.feePaid && q.feePaidPct == p.feePaidPct
  }

  lemma SameDue(c: Config, p: Position, q: Position, price: real, now: int)
    requires SameForBreakeven(p, q)
    ensures BreakevenDue(c, q, price, now) == BreakevenDue(c, p, price, now)
  {
  }

  /** A check without record and force close: tracking, then the move if due. */
  lemma CheckMoves(c: Config, s: State, price: real, now: int, d: Decision) returns (q: Position)
    requires s.position.Some? && s.protection.None? && !d.ForceClose? && price != 0.0
    ensures SameForBreakeven(s.position.value, q)
    ensures Check(c, s, Some(price), now, d)
         == if BreakevenDue(c, s.position.value, price, now) then MoveToBreakeven(s, q) else s.(position := Some(q))
  {
    var p := s.position.value;
    q := TrackPrice(p, price);
    if c.forceSLOn && !q.tp1Filled && ShouldCheckForceSL(c, q, price, now) {
      q := q.(lastForceSLCheck := Some(now), forceSLCount := q.forceSLCount + 1);
    }
    SameDue(c, p, q, price, now);
    hide PnlAbove, PnlBelow, MoveToBreakeven;
  }

  /** Before TP1 a check leaves a matching position bare exactly when it is due to
      move its stop to breakeven, cancels the old one and fails to place the new. */
  lemma BreakevenBareIff(c: Config, s: State, price: real, now: int, d: Decision)
    requires O.Matched(s) && s.protection.None? && s.position.Some? && !O.IsStub(s.position.value)
    requires !d.ForceClose? && price != 0.0
    ensures Bare(Check(c, s, Some(price), now, d))
       <==> BreakevenDue(c, s.position.value, price, now) && s.ex.calls !in s.ex.failing && s.ex.calls + 1 in s.ex.failing
  {
    var q := CheckMoves(c, s, price, now, d);
    hide Check, BreakevenPrice;
    var p, n := s.position.value, s.ex.calls;
    assert O.StopId(p) in Stops(s.ex);
    if BreakevenDue(c, p, price, now) {
      var s' := MoveToBreakeven(s, q);
      if n + 1 !in s.ex.failing {
        assert n + 2 in Stops(s'.ex);
      } else if n in s.ex.failing {
        assert O.StopId(p) in Stops(s'.ex);
      }
    }
  }

  /** This loss is repaired by the next check that is due and can place the stop. */
  lemma BreakevenRepairedIff(c: Config, s: State, price: real, now: int, d: Decision)
    requires Bare(s) && !s.position.value.tp1Filled && s.position.value.slOrderId != NO_ORDER
    requires !d.ForceClose? && price != 0.0
    ensures !Bare(Check(c, s, Some(price), now, d))
       <==> BreakevenDue(c, s.position.value, price, now) && s.ex.calls + 1 !in s.ex.failing
  {
    var q := CheckMoves(c, s, price, now, d);
    hide Check, BreakevenPrice, BreakevenDue;
    if s.ex.calls + 1 !in s.ex.failing {
      assert s.ex.calls + 2 in Stops(MoveToBreakeven(s, q).ex);
    }
  }
}
