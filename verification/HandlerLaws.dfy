/** What single events do to a position, in the terms of the event. */
module HandlerLaws {
  import opened Options
  import opened Rounding
  import opened PositionSpec
  import E = ExitPnl
  import F = ForceCloses
  import L = Lifecycle

  // ---------------------------------------------------------------- the entry's fill

  /** An entry fill opens its position exactly when it is filled at a price and its
      record is there, at that price, with the filled quantity (the ordered one if
      none is reported) and the exchange's time; otherwise it changes nothing. */
  lemma EntryOpensIff(c: Config, s: State, u: OrderUpdate, tradedAt: int)
    requires u.marketSell && s.ex.NoMoreFailures()
    ensures var s' := HandleUpdate(c, s, u, tradedAt);
            if u.filled && u.clientId in s.pending && u.avgPrice != 0.0
            then && s'.position.Some?
                 && var p, pe := s'.position.value, s.pending[u.clientId];
                 && p.tradeId == pe.tradeId && p.entryPrice == u.avgPrice && p.openedAt == tradedAt
                 && p.originalQty == p.quantity == (if u.filledQty == 0.0 then pe.quantity else u.filledQty)
                 && p.slOrderId in s'.ex.open && p.tpOrderId in s'.ex.open && p.tp2OrderId in s'.ex.open
                 && p.stopLoss == s'.ex.open[p.slOrderId].price && p.takeProfit == s'.ex.open[p.tpOrderId].price
                 && p.tp2Price == s'.ex.open[p.tp2OrderId].price
                 && p.highSinceEntry == p.lowSinceEntry == u.avgPrice && !p.tp1Filled && !p.breakevenMoved
                 && pe.tradeId !in s'.pending
                 && s'.results == s.results && s'.protection == s.protection
            else s' == s
  {
    var k := s.ex.calls;
    assert k !in s.ex.failing && k + 1 !in s.ex.failing && k + 2 !in s.ex.failing;
  }

  // ---------------------------------------------------------------- other fills

  /** A fill of an order the cached position does not name closes it exactly when
      the order was reduce-only; an event that is no fill never does anything. */
  lemma UnnamedFillClosesIff(c: Config, s: State, u: OrderUpdate, tradedAt: int)
    requires !u.marketSell && s.position.Some? && !F.Names(s, u.clientId)
    ensures var s' := HandleUpdate(c, s, u, tradedAt);
            && (s'.position.None? <==> u.filled && u.reduceOnly)
            && (!(u.filled && u.reduceOnly) ==> s' == s)
            && s'.ex == s.ex
  {
    hide AvgClosePrice, PnlAt, FinalPnl, TP1Share;
  }

  lemma NoFillNoChange(c: Config, s: State, u: OrderUpdate, tradedAt: int)
    requires !u.filled
    ensures HandleUpdate(c, s, u, tradedAt) == s
  {
  }

  // ---------------------------------------------------------------- labels

  /** What one close appended, with its label. */
  predicate Labelled(s: State, s': State, outcome: Outcome, reason: Reason) {
    && |s'.results| == |s.results| + 1
    && s'.results[|s.results|].outcome == outcome
    && s'.results[|s.results|].reason == reason
  }

  /** Which outcome a close is given, by the gain it made after the fee. */
  lemma LabelsFollowGain(c: Config, s: State, p: Position, price: real)
    requires p.tradeId != NIL_TRADE
    ensures Labelled(s, TP2Fill(c, s, p, price), WIN, TP2)
    ensures var net := Round8(E.LegPnl(c, p, price)) - Fee(p);
            && Labelled(s, TrailingSLFill(c, s, p, price), if net > 0.0 then WIN else BREAKEVEN, TP_TRAIL)
            && Labelled(s, ForceCloseConfirmed(c, s, p, price),
                        if p.tp1Filled then WIN else if net > 0.0 then PARTIAL_WIN else if net > -1.5 then BREAKEVEN else LOSS,
                        FORCE_CLOSE)
    ensures Labelled(s, ManualClose(c, s, p, price), if E.LegPnl(c, p, price) > Fee(p) then WIN else LOSS, MANUAL)
    ensures Labelled(s, HardSLFill(s, p, price),
                     if !p.breakevenMoved then LOSS
                     else if Round8((p.entryPrice - price) * p.originalQty) > 0.0 then PARTIAL_WIN else BREAKEVEN,
                     if p.breakevenMoved then BREAKEVEN_SL else HARD_SL)
  {
    E.GrossIsLegs(c, p, price);
    assert PnlAt(p, price) == (p.entryPrice - price) * p.originalQty;
    hide PnlAt, AvgClosePrice, Round8, E.LegPnl;
  }

  // ---------------------------------------------------------------- the sweep

  const FIVE_SECONDS: int := 5 * 1_000_000_000

  predicate SweepDue(c: Config, p: Position, now: int) {
    p.slOrderId == NO_ORDER && p.tpOrderId == NO_ORDER && p.tradeId != NIL_TRADE && now - p.openedAt >= c.sweepGrace
  }

  /** The sweep touches a cached position exactly when it has a trade id, neither
      stop nor take-profit, and is older than the grace period. */
  lemma SweepActsIff(c: Config, s: State, now: int, live: LivePosition)
    requires s.position.Some?
    ensures Sweep(c, s, now, live).ex.calls > s.ex.calls || Sweep(c, s, now, live).position.None?
       <==> SweepDue(c, s.position.value, now)
    ensures !SweepDue(c, s.position.value, now) ==> Sweep(c, s, now, live) == s
  {
  }

  /** Without an entry record it protects what the exchange reports: the position is
      dropped if there is none, else protected at the reported entry and quantity,
      where they are positive, and at the cached ones where not. */
  lemma SweepProtectsLive(c: Config, s: State, now: int, live: LivePosition)
    requires s.position.Some? && s.ex.NoMoreFailures()
    requires SweepDue(c, s.position.value, now) && s.position.value.tradeId !in s.pending
    ensures var p, s' := s.position.value, Sweep(c, s, now, live);
            && (live.NoPosition? ==> s' == s.(position := None))
            && (!live.NoPosition? ==>
                  && s'.position.Some?
                  && var q := s'.position.value;
                  && q.entryPrice == (if live.Live? && live.entryPrice > 0.0 then live.entryPrice else p.entryPrice)
                  && q.originalQty == q.quantity
                  && q.quantity == (if live.Live? && live.quantity > 0.0 then live.quantity
                                    else if p.originalQty != 0.0 then p.originalQty else p.quantity)
                  && q.slOrderId in s'.ex.open && q.tpOrderId in s'.ex.open
                  && q.stopLoss == s'.ex.open[q.slOrderId].price && q.takeProfit == s'.ex.open[q.tpOrderId].price
                  && s'.ex.open[q.slOrderId] == Stop(q.entryPrice * (1.0 + c.slPct / 100.0))
                  && s'.ex.open[q.tpOrderId] == Limit(q.entryPrice * (1.0 - c.tpPct / 100.0), q.quantity))
  {
    var k, p := s.ex.calls, s.position.value;
    assert k !in s.ex.failing && k + 1 !in s.ex.failing;
    var e := ConfirmedEntry(p, live);
    assert e + e * (c.slPct / 100.0) == e * (1.0 + c.slPct / 100.0);
    assert e - e * (c.tpPct / 100.0) == e * (1.0 - c.tpPct / 100.0);
  }

  /** The sweep of the engine's own stub, its record still there, opens the position
      at the price and quantity the engine had. */
  lemma SweepOpensStub(c: Config, s: State, pe: PendingEntry, price: real, openedAt: int, now: int, live: LivePosition)
    requires s.position == Some(L.Stub(pe, price, openedAt)) && pe.tradeId in s.pending && s.pending[pe.tradeId] == pe
    requires pe.tradeId != NIL_TRADE && now - openedAt >= c.sweepGrace && s.ex.NoMoreFailures()
    ensures var s' := Sweep(c, s, now, live);
            && s'.position.Some?
            && var q := s'.position.value;
            && q.tradeId == pe.tradeId && q.entryPrice == price && q.originalQty == q.quantity == pe.quantity
            && q.openedAt == openedAt && pe.tradeId !in s'.pending
            && q.slOrderId in s'.ex.open && q.tpOrderId in s'.ex.open && q.tp2OrderId in s'.ex.open
  {
    var k := s.ex.calls;
    assert k !in s.ex.failing && k + 1 !in s.ex.failing && k + 2 !in s.ex.failing;
  }

  // ---------------------------------------------------------------- the retry

  /** A retry makes a call exactly when five seconds have passed since the last one;
      before that nothing changes. */
  lemma RetryActsIff(c: Config, s: State, p: Position, pp: PendingProtection, now: int)
    requires pp.needsSL || pp.needsTP
    ensures var s' := RetryProtection(c, s, p, pp, now);
            && (s'.ex.calls > s.ex.calls <==> pp.lastAttempt.None? || now - pp.lastAttempt.value >= FIVE_SECONDS)
            && (s'.ex.calls == s.ex.calls ==> s' == s)
  {
    CallsGrow(s.ex.Market().0, p);
    hide CancelAllOrders;
  }

  lemma CallsGrow(ex: Exchange, p: Position)
    ensures CancelAllOrders(ex, p).calls >= ex.calls
  {
  }

  /** A succeeding round places what the record asks for, as it asks. */
  lemma RoundPlaces(c: Config, s: State, p: Position, pp: PendingProtection, now: int)
    requires s.ex.NoMoreFailures() && s.position == Some(p) && (pp.needsSL || pp.needsTP) && pp.retries < 5
    requires pp.lastAttempt.None? || now - pp.lastAttempt.value >= FIVE_SECONDS
    ensures var s' := RetryProtection(c, s, p, pp, now);
            && s'.protection.None? && s'.position.Some?
            && var q := s'.position.value;
            && (pp.needsSL ==> q.slOrderId in s'.ex.open && s'.ex.open[q.slOrderId] == Stop(pp.stopLoss) && q.stopLoss == pp.stopLoss)
            && (pp.needsTP ==>
                  && q.tpOrderId in s'.ex.open && s'.ex.open[q.tpOrderId] == Limit(pp.takeProfit, pp.tp1Qty)
                  && q.takeProfit == pp.takeProfit
                  && q.tp2OrderId in s'.ex.open && q.tp2Price == s'.ex.open[q.tp2OrderId].price
                  && s'.ex.open[q.tp2OrderId] == Limit(pp.entryPrice * (1.0 - c.tp2Pct / 100.0), pp.quantity - pp.tp1Qty))
  {
    var k := s.ex.calls;
    assert k !in s.ex.failing && k + 1 !in s.ex.failing && k + 2 !in s.ex.failing;
  }

  /** The record a failed entry leaves asks for the orders the entry would have
      placed: retried with success they are those. */
  lemma FailedEntryAsksForItsOrders(c: Config, s: State, pe: PendingEntry, entry: real, qty: real, openedAt: int)
    requires s.ex.calls in s.ex.failing || s.ex.calls + 1 in s.ex.failing
    ensures var s' := FinalizeSLTP(c, s, pe, entry, qty, openedAt);
            && s'.position == s.position && s'.pending == s.pending
            && s'.protection.Some?
            && var pp, filled := s'.protection.value, if qty == 0.0 then pe.quantity else qty;
            && pp.needsSL && pp.needsTP && pp.retries == 0 && pp.lastAttempt.None?
            && pp.entryPrice == entry && pp.quantity == filled && pp.tp1Qty == filled * c.tp1SizePct / 100.0
            && pp.stopLoss == entry * (1.0 + c.slPct / 100.0) && pp.takeProfit == entry * (1.0 - pe.tpPct / 100.0)
  {
    var filled := if qty == 0.0 then pe.quantity else qty;
    assert filled * (c.tp1SizePct / 100.0) == filled * c.tp1SizePct / 100.0;
    assert entry + entry * (c.slPct / 100.0) == entry * (1.0 + c.slPct / 100.0);
    assert entry - entry * (pe.tpPct / 100.0) == entry * (1.0 - pe.tpPct / 100.0);
  }

  // ---------------------------------------------------------------- what else a check records

  /** A check without record and force close widens the tracked price range to the
      price (a zero low counts as none) unless a failed move kept it from storing. */
  lemma CheckTracksRange(c: Config, s: State, price: real, now: int, d: Decision)
    requires s.position.Some? && s.protection.None? && !d.ForceClose? && price != 0.0 && s.ex.NoMoreFailures()
    ensures var p, s' := s.position.value, Check(c, s, Some(price), now, d);
            && s'.position.Some?
            && var q := s'.position.value;
            && q.highSinceEntry >= price && q.highSinceEntry >= p.highSinceEntry && q.highSinceEntry in {price, p.highSinceEntry}
            && q.lowSinceEntry <= price && q.lowSinceEntry in {price, p.lowSinceEntry}
            && (p.lowSinceEntry != 0.0 ==> q.lowSinceEntry <= p.lowSinceEntry)
            && (p.lowSinceEntry == 0.0 ==> q.lowSinceEntry == price)
  {
    assert s.ex.calls !in s.ex.failing && s.ex.calls + 1 !in s.ex.failing;
    hide PnlAbove, PnlBelow, BreakevenPrice;
  }

  /** A check that asks the force-stop engine and is not told to close stores when it
      asked and counts it; any other check leaves both. */
  lemma AskingIsStored(c: Config, s: State, price: real, now: int, d: Decision)
    requires s.position.Some? && s.position.value.entryPrice > 0.0 && s.protection.None?
    requires !d.ForceClose? && price != 0.0 && s.ex.NoMoreFailures()
    ensures var p, s' := s.position.value, Check(c, s, Some(price), now, d);
            && s'.position.Some?
            && var q, asked := s'.position.value, c.forceSLOn && !p.tp1Filled && F.ForceDue(c, p, price, now);
            && q.lastForceSLCheck == (if asked then Some(now) else p.lastForceSLCheck)
            && q.forceSLCount == p.forceSLCount + (if asked then 1 else 0)
  {
    var p := s.position.value;
    assert s.ex.calls !in s.ex.failing && s.ex.calls + 1 !in s.ex.failing;
    F.DueInRatios(c, p, price, now);
    F.AskedTracked(c, p, price, now);
    hide PnlAbove, PnlBelow, BreakevenPrice, F.ForceDue;
  }

  // ---------------------------------------------------------------- force close

  predicate Named(p: Position, id: OrderId) {
    id == p.slOrderId || id == p.tpOrderId || id == p.tp2OrderId || id == p.trailingOrderId || id == p.trailingSLOrderId
  }

  /** A force close with succeeding calls cancels every order the position names and
      no other. */
  lemma ForceCloseCancelsNamed(s: State, p: Position)
    requires s.ex.NoMoreFailures() && NO_ORDER !in s.ex.open
    ensures var s' := ForceClosePosition(s, p);
            && s'.forceCloseId.Some? && s'.position == s.position
            && forall id :: id in s'.ex.open <==> id in s.ex.open && !Named(p, id)
  {
  }

  // ---------------------------------------------------------------- more of the sweep

  /** A protection that fails in part is recorded: exactly the missing orders, at the
      prices tried, over the whole quantity. */
  lemma SweepRecordsMissing(c: Config, s: State, now: int, live: LivePosition)
    requires s.position.Some? && !live.NoPosition?
    requires SweepDue(c, s.position.value, now) && s.position.value.tradeId !in s.pending
    ensures var n, s' := s.ex.calls, Sweep(c, s, now, live);
            && s'.position.Some?
            && var q := s'.position.value;
            if n !in s.ex.failing && n + 1 !in s.ex.failing then s'.protection == s.protection
            else && s'.protection.Some?
                 && var pp := s'.protection.value;
                 && pp.needsSL == (n in s.ex.failing) && pp.needsTP == (n + 1 in s.ex.failing)
                 && pp.entryPrice == q.entryPrice && pp.quantity == pp.tp1Qty == q.quantity
                 && pp.stopLoss == q.entryPrice * (1.0 + c.slPct / 100.0)
                 && pp.takeProfit == q.entryPrice * (1.0 - c.tpPct / 100.0)
                 && pp.retries == 0 && pp.lastAttempt.None?
  {
    var e := ConfirmedEntry(s.position.value, live);
    assert e + e * (c.slPct / 100.0) == e * (1.0 + c.slPct / 100.0);
    assert e - e * (c.tpPct / 100.0) == e * (1.0 - c.tpPct / 100.0);
  }

  // ---------------------------------------------------------------- a lost record

  /** An entry whose record is lost before its fill event comes: the sweep places a
      stop and a take-profit over the quantity ordered, at the price the engine
      noted, whether or not the exchange can be asked. */
  lemma LostRecordStillProtected(c: Config, y: L.System, pe: PendingEntry, price: real, later: int)
    requires y.st.position.None? && y.st.ex.NoMoreFailures() && pe.tradeId != NIL_TRADE && pe.quantity != 0.0
    requires later - y.clock >= c.sweepGrace
    ensures var s := L.Run(c, y, [L.At(y.clock, L.Enter(pe)), L.At(y.clock, L.WriteStub(pe.tradeId, price, y.clock)),
                                  L.At(y.clock, L.Expire(pe.tradeId))] + [L.At(later, L.SweepTick(ReadFailed))]).st;
            && s.position.Some?
            && var q := s.position.value;
            && q.tradeId == pe.tradeId && q.entryPrice == price && q.quantity == q.originalQty == pe.quantity
            && q.slOrderId in s.ex.open && s.ex.open[q.slOrderId] == Stop(price * (1.0 + c.slPct / 100.0))
            && q.tpOrderId in s.ex.open && s.ex.open[q.tpOrderId] == Limit(price * (1.0 - c.tpPct / 100.0), pe.quantity)
  {
    var e1, e2, e3 := L.At(y.clock, L.Enter(pe)), L.At(y.clock, L.WriteStub(pe.tradeId, price, y.clock)), L.At(y.clock, L.Expire(pe.tradeId));
    var e4 := L.At(later, L.SweepTick(ReadFailed));
    var y3 := L.Step(c, L.Step(c, L.Step(c, y, e1), e2), e3);
    assert y3.st.position == Some(L.Stub(pe, price, y.clock)) && pe.tradeId !in y3.st.pending && y3.st.ex.NoMoreFailures();
    L.RunJoin(c, y, [e1, e2, e3], [e4]);
    L.RunThree(c, y, e1, e2, e3);
    L.RunCons(c, y3, e4, []);
    assert [e4] + [] == [e4];
    var s3 := L.AdvanceClock(y3, later).st;
    assert L.Step(c, y3, e4).st == Sweep(c, s3, later, ReadFailed);
    SweepProtectsLive(c, s3, later, ReadFailed);
    hide Sweep, L.Step, L.Run;
  }
}
