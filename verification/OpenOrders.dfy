/** When executor calls succeed, the orders resting at the exchange are exactly
    the ones the cached position names, at every point of every orderly run. */
module OpenOrders {
  import opened Options
  import opened PositionSpec
  import opened Lifecycle

  /** The clock does not go back; one entry at a time (the engine skips a symbol
      that has a position, and its calls for a symbol do not overlap); the
      exchange's timestamp of an order is less than nine minutes behind the bot's
      clock; TP2 fills after TP1; no force close and no manual close.  Orders may
      fill before the engine has written its stub. */
  predicate Orderly(c: Config, y: System, t: Timed) {
    && y.clock <= t.now
    && match t.event
       case Enter(pe) =>
         && y.st.position.None?
         && y.stubDue == map[]
         && pe.tradeId != NIL_TRADE
         && pe.expiresAt == t.now + PENDING_TTL
         && pe.tpPct == c.tpPct
       case WriteStub(trade, _, openedAt) =>
         trade in y.stubDue ==> y.stubDue[trade].expiresAt <= openedAt + BREAKEVEN_HOLD
       case Tick(_, decision) => !decision.ForceClose?
       case Fill(id, _, _) =>
         && id in y.st.ex.open
         && y.st.position.Some?
         && (id == y.st.position.value.tp2OrderId ==> y.st.position.value.tp1Filled)
       case Other(u) => !u.filled || (!u.marketSell && y.st.position.None?)
       case _ => true
  }

  predicate OrderlyRun(c: Config, y: System, run: seq<Timed>)
    decreases |run|
  {
    run != [] ==> Orderly(c, y, run[0]) && OrderlyRun(c, Step(c, y, run[0]), run[1..])
  }

  // ---------------------------------------------------------------- the promise

  /** The one stop a position names, if any: the hard (or moved) stop before TP1,
      the breakeven stop after it. */
  function StopId(p: Position): OrderId {
    if p.tp1Filled then p.trailingSLOrderId else p.slOrderId
  }

  predicate NamesStop(p: Position, id: OrderId) {
    id != NO_ORDER && id == StopId(p)
  }

  /** TP1 until it fills, and TP2. */
  predicate NamesLimit(p: Position, id: OrderId) {
    id != NO_ORDER && (id == p.tp2OrderId || (id == p.tpOrderId && !p.tp1Filled))
  }

  /** Without a cached position no orders rest.  With one, exactly the orders it
      names rest, its stop as a stop and its take-profits as limits; there is a
      stop whenever there is any order, and after TP1 both stop and TP2 are set. */
  predicate OrdersMatch(s: State) {
    match s.position
    case None => s.ex.open.Keys == {}
    case Some(p) =>
      && (forall id :: id in s.ex.open ==> NamesStop(p, id) || NamesLimit(p, id))
      && (NamesStop(p, StopId(p)) ==> StopId(p) in s.ex.open)
      && (NamesLimit(p, p.tp2OrderId) ==> p.tp2OrderId in s.ex.open)
      && (NamesLimit(p, p.tpOrderId) ==> p.tpOrderId in s.ex.open)
      && (forall id :: id in s.ex.open ==> (s.ex.open[id].Stop? <==> NamesStop(p, id)))
      && (s.ex.open.Keys != {} ==> StopId(p) != NO_ORDER)
      && (p.tp1Filled ==> StopId(p) != NO_ORDER && p.tp2OrderId != NO_ORDER)
  }

  // ---------------------------------------------------------------- the invariant

  predicate Shape(p: Position) {
    && p.trailingOrderId == NO_ORDER
    && (p.tpOrderId != NO_ORDER ==> p.tpOrderId != p.slOrderId && p.tpOrderId != p.tp2OrderId)
    && (p.tp2OrderId != NO_ORDER ==> p.tp2OrderId != p.slOrderId && p.tpOrderId != NO_ORDER)
    && if p.tp1Filled
       then
         && p.slOrderId == NO_ORDER
         && p.trailingSLOrderId !in {NO_ORDER, p.tpOrderId, p.tp2OrderId}
         && p.tp2OrderId != NO_ORDER
       else
         && p.trailingSLOrderId == NO_ORDER
         && (p.slOrderId == NO_ORDER ==> p.tpOrderId == NO_ORDER)
  }

  predicate IsStub(p: Position) {
    !p.tp1Filled && p.slOrderId == NO_ORDER
  }

  predicate PendingFits(y: System) {
    && (forall t :: t in y.st.pending ==> y.st.pending[t].tradeId == t)
    && (forall t :: t in y.stubDue ==> y.stubDue[t].tradeId == t)
    && (forall a, b :: a in y.stubDue && b in y.stubDue ==> a == b)
    && (forall t :: t in y.st.pending && t in y.stubDue ==> y.st.pending[t] == y.stubDue[t])
    && match y.st.position
       case None => y.st.pending.Keys <= y.stubDue.Keys
       case Some(p) =>
         forall t :: t in y.st.pending ==>
                       IsStub(p) && t == p.tradeId && y.st.pending[t].expiresAt <= p.openedAt + BREAKEVEN_HOLD
  }

  /** Matching orders under fresh ids, named in one of the shapes a position has. */
  predicate Matched(s: State) {
    && OrdersMatch(s)
    && (forall id :: id in s.ex.open ==> 0 < id <= s.ex.calls)
    && (s.position.Some? ==> Shape(s.position.value) && s.position.value.tpOrderId <= s.ex.calls)
  }

  predicate OrdersInv(s: State) {
    s.ex.failing == {} && s.protection.None? && Matched(s)
  }

  predicate Inv(y: System) {
    OrdersInv(y.st) && PendingFits(y)
  }

  // ---------------------------------------------------------------- the orders, handler by handler

  lemma FinalizeOrders(c: Config, s: State, pe: PendingEntry, entry: real, qty: real, openedAt: int)
    requires OrdersInv(s) && (s.position.Some? ==> IsStub(s.position.value))
    ensures OrdersInv(FinalizeSLTP(c, s, pe, entry, qty, openedAt))
  {
  }

  lemma EmergencyOrders(c: Config, s: State, live: LivePosition)
    requires OrdersInv(s) && s.position.Some? && IsStub(s.position.value)
    ensures OrdersInv(EmergencyProtect(c, s, s.position.value, live))
  {
  }

  lemma BreakevenOrders(s: State)
    requires OrdersInv(s) && s.position.Some? && !s.position.value.tp1Filled
    ensures OrdersInv(MoveToBreakeven(s, s.position.value))
  {
  }

  lemma TP1Orders(c: Config, s: State, p: Position, price: real, qty: real)
    requires OrdersInv(s) && s.position == Some(p) && !p.tp1Filled && p.tpOrderId in s.ex.open
    ensures OrdersInv(TP1Fill(c, AfterFill(s, p.tpOrderId), p, price, qty))
  {
  }

  lemma FillOrders(c: Config, s: State, id: OrderId, price: real, qty: real, now: int)
    requires OrdersInv(s) && s.position.Some? && id in s.ex.open
    requires id == s.position.value.tp2OrderId ==> s.position.value.tp1Filled
    ensures OrdersInv(HandleUpdate(c, AfterFill(s, id), FillUpdate(id, price, qty), now))
  {
    var p := s.position.value;
    if id == p.tpOrderId {
      hide TP1Fill;
      TP1Orders(c, s, p, price, qty);
    }
  }

  /** Same orders, same entry; prices tracked and counters may differ. */
  predicate SameOrders(p: Position, q: Position) {
    && q.slOrderId == p.slOrderId && q.tpOrderId == p.tpOrderId && q.tp2OrderId == p.tp2OrderId
    && q.trailingOrderId == p.trailingOrderId && q.trailingSLOrderId == p.trailingSLOrderId
    && q.tp1Filled == p.tp1Filled && q.breakevenMoved == p.breakevenMoved
    && q.tradeId == p.tradeId && q.openedAt == p.openedAt
  }

  predicate SameEntry(p: Position, q: Position) {
    && q.entryPrice == p.entryPrice && q.originalQty == p.originalQty && q.tp1FillPrice == p.tp1FillPrice
    && q.feePaid == p.feePaid && q.feePaidAmount == p.feePaidAmount
  }

  lemma SameOrdersKeep(s: State, q: Position)
    requires OrdersInv(s) && s.position.Some? && SameOrders(s.position.value, q)
    ensures OrdersInv(s.(position := Some(q)))
  {
  }

  /** A check without a force close either refreshes the cached position or moves
      its stop to breakeven; the latter only ten minutes after the entry. */
  lemma CheckCases(c: Config, s: State, market: Option<real>, now: int, d: Decision) returns (q: Position)
    requires s.position.Some? && market.Some? && market.value != 0.0
    requires s.ex.failing == {} && s.protection.None? && !d.ForceClose?
    ensures SameOrders(s.position.value, q) && SameEntry(s.position.value, q)
    ensures var s1, s' := s.(position := Some(q)), Check(c, s, market, now, d);
            || s' == s1
            || (!q.tp1Filled && now - q.openedAt >= BREAKEVEN_HOLD && s' == MoveToBreakeven(s1, q))
  {
    hide PnlAbove, PnlBelow, BreakevenPrice;
    q := TrackPrice(s.position.value, market.value);
    if c.forceSLOn && !q.tp1Filled && ShouldCheckForceSL(c, q, market.value, now) {
      q := q.(lastForceSLCheck := Some(now), forceSLCount := q.forceSLCount + 1);
    }
  }

  // ---------------------------------------------------------------- the pending records

  /** What a handler may do to the entry side of a system. */
  predicate EntryKept(y: System, s': State) {
    && s'.pending.Keys <= y.st.pending.Keys
    && (forall t :: t in s'.pending ==> s'.pending[t] == y.st.pending[t])
    && match s'.position
       case None => s'.pending.Keys == {} || (y.st.position.None? && s'.pending == y.st.pending)
       case Some(q) =>
         || s'.pending.Keys == {}
         || (y.st.position.Some? && var p := y.st.position.value;
             IsStub(q) && q.tradeId == p.tradeId && q.openedAt == p.openedAt)
  }

  lemma EntryKeptFits(y: System, s': State)
    requires PendingFits(y) && EntryKept(y, s')
    ensures PendingFits(y.(st := s'))
  {
  }

  /** Only a stub can have its record, and only its own. */
  lemma OnlyOwnRecord(y: System, t: TradeId)
    requires PendingFits(y) && t in y.st.pending
    ensures y.st.position.Some? ==> IsStub(y.st.position.value)
    ensures y.st.pending.Keys == {t} && y.st.pending[t].tradeId == t
  {
  }

  lemma FinalizeKeeps(c: Config, y: System, t: TradeId, entry: real, qty: real, openedAt: int)
    requires Inv(y) && t in y.st.pending
    ensures Inv(y.(st := FinalizeSLTP(c, y.st, y.st.pending[t], entry, qty, openedAt)))
  {
    var s' := FinalizeSLTP(c, y.st, y.st.pending[t], entry, qty, openedAt);
    OnlyOwnRecord(y, t);
    FinalizeOrders(c, y.st, y.st.pending[t], entry, qty, openedAt);
    assert s'.position.Some? && s'.pending == y.st.pending - {t};
    EntryKeptFits(y, s');
  }

  lemma EngineKeeps(c: Config, y: System, t: Timed)
    requires Inv(y) && y.clock == t.now && Orderly(c, y, t)
    requires t.event.Enter? || t.event.WriteStub? || t.event.Expire?
    ensures Inv(Apply(c, y, t.event))
  {
  }

  lemma TickKeeps(c: Config, y: System, market: Option<real>, d: Decision)
    requires Inv(y) && !d.ForceClose?
    requires forall t :: t in y.st.pending ==> y.clock < y.st.pending[t].expiresAt
    ensures Inv(y.(st := Check(c, y.st, market, y.clock, d)))
  {
    if y.st.position.Some? && market.Some? && market.value != 0.0 {
      hide Check;
      var q := CheckCases(c, y.st, market, y.clock, d);
      SameOrdersKeep(y.st, q);
      var s1, s' := y.st.(position := Some(q)), Check(c, y.st, market, y.clock, d);
      if s' != s1 {
        BreakevenOrders(s1);
        RecordExpired(y);
      }
      TickEntry(y, q, s');
    }
  }

  /** By the time a stop may move to breakeven, the entry's record has expired. */
  lemma RecordExpired(y: System)
    requires PendingFits(y) && y.st.position.Some? && y.clock - y.st.position.value.openedAt >= BREAKEVEN_HOLD
    requires forall t :: t in y.st.pending ==> y.clock < y.st.pending[t].expiresAt
    ensures y.st.pending.Keys == {}
  {
  }

  lemma TickEntry(y: System, q: Position, s': State)
    requires PendingFits(y) && y.st.position.Some? && SameOrders(y.st.position.value, q)
    requires var s1 := y.st.(position := Some(q));
             s' == s1 || (y.st.pending.Keys == {} && s' == MoveToBreakeven(s1, q))
    ensures PendingFits(y.(st := s'))
  {
  }

  lemma SweepKeeps(c: Config, y: System, live: LivePosition)
    requires Inv(y)
    ensures Inv(y.(st := Sweep(c, y.st, y.clock, live)))
  {
    if y.st.position.Some? && IsUnprotectedStub(c, y.st.position.value, y.clock) {
      var p := y.st.position.value;
      if p.tradeId in y.st.pending {
        hide FinalizeSLTP;
        FinalizeKeeps(c, y, p.tradeId, p.entryPrice, p.originalQty, p.openedAt);
      } else {
        SweepEmergency(c, y, live);
      }
    }
  }

  lemma SweepEmergency(c: Config, y: System, live: LivePosition)
    requires Inv(y) && y.st.position.Some? && IsUnprotectedStub(c, y.st.position.value, y.clock)
    requires y.st.position.value.tradeId !in y.st.pending
    ensures Inv(y.(st := EmergencyProtect(c, y.st, y.st.position.value, live)))
  {
    var s' := EmergencyProtect(c, y.st, y.st.position.value, live);
    assert y.st.pending.Keys == {};
    if !y.st.position.value.tp1Filled {
      EmergencyOrders(c, y.st, live);
    }
    EntryKeptFits(y, s');
  }

  lemma FillKeeps(c: Config, y: System, t: Timed)
    requires Inv(y) && y.clock == t.now && t.event.Fill? && Orderly(c, y, t)
    ensures Inv(Apply(c, y, t.event))
  {
    FillOrders(c, y.st, t.event.id, t.event.price, t.event.qty, y.clock);
    FillEntry(c, y, t.event.id, t.event.price, t.event.qty);
  }

  lemma FillEntry(c: Config, y: System, id: OrderId, price: real, qty: real)
    requires Inv(y) && y.st.position.Some? && id in y.st.ex.open
    ensures PendingFits(y.(st := HandleUpdate(c, AfterFill(y.st, id), FillUpdate(id, price, qty), y.clock)))
  {
    assert !IsStub(y.st.position.value);
    assert y.st.pending.Keys == {};
    var s' := HandleUpdate(c, AfterFill(y.st, id), FillUpdate(id, price, qty), y.clock);
    assert s'.pending == y.st.pending;
    EntryKeptFits(y, s');
  }

  lemma ClockKeeps(y: System, now: int)
    requires Inv(y)
    ensures Inv(AdvanceClock(y, now))
    ensures forall t :: t in AdvanceClock(y, now).st.pending ==> now < AdvanceClock(y, now).st.pending[t].expiresAt
  {
  }

  lemma StepKeeps(c: Config, y: System, t: Timed)
    requires Inv(y) && Orderly(c, y, t)
    ensures Inv(Step(c, y, t))
  {
    hide Inv, Check, Sweep, FinalizeSLTP, CloseUpdate;
    var y0 := AdvanceClock(y, t.now);
    ClockKeeps(y, t.now);
    match t.event {
      case Tick(market, d) => TickKeeps(c, y0, market, d);
      case SweepTick(live) => SweepKeeps(c, y0, live);
      case Fill(_, _, _) => FillKeeps(c, y0, t);
      case Other(_) =>
      case EntryFill(trade, price, qty, tradedAt) =>
        if trade in y0.st.pending && price != 0.0 {
          FinalizeKeeps(c, y0, trade, price, qty, tradedAt);
        } else {
          NoEntryFill(c, y0, trade, price, qty, tradedAt);
        }
      case _ => EngineKeeps(c, y0, t);
    }
  }

  lemma NoEntryFill(c: Config, y: System, t: TradeId, price: real, qty: real, tradedAt: int)
    requires Inv(y) && (t !in y.st.pending || price == 0.0)
    ensures Inv(Apply(c, y, EntryFill(t, price, qty, tradedAt)))
  {
  }

  lemma {:induction false} RunKeeps(c: Config, y: System, run: seq<Timed>)
    requires Inv(y) && OrderlyRun(c, y, run)
    ensures Inv(Run(c, y, run))
    decreases |run|
  {
    if run != [] {
      StepKeeps(c, y, run[0]);
      RunKeeps(c, Step(c, y, run[0]), run[1..]);
    }
  }

  /** Every prefix of an orderly run is one, so this speaks of every state
      reached: sweep-repaired positions, moved stops and closes included. */
  lemma OpenOrdersAlwaysMatch(c: Config, y: System, run: seq<Timed>)
    requires Idle(y) && y.st.ex.failing == {} && OrderlyRun(c, y, run)
    ensures OrdersMatch(Run(c, y, run).st)
  {
    RunKeeps(c, y, run);
  }

  /** The fill of one of a position's orders leaves the right orders behind
      exactly when it is not TP2 ahead of TP1: that close cancels neither the
      stop nor TP1. */
  lemma FillLeavesOrdersMatchedIff(c: Config, s: State, id: OrderId, price: real, qty: real, now: int)
    requires OrdersInv(s) && s.position.Some? && id in s.ex.open
    ensures OrdersMatch(HandleUpdate(c, AfterFill(s, id), FillUpdate(id, price, qty), now))
       <==> (id == s.position.value.tp2OrderId ==> s.position.value.tp1Filled)
  {
    if id == s.position.value.tp2OrderId && !s.position.value.tp1Filled {
      EarlyTP2LeavesStop(c, s, id, price, qty, now);
    } else {
      FillOrders(c, s, id, price, qty, now);
    }
  }

  /** Confirming an entry leaves the right orders exactly when nothing rested
      before: over a position with orders, those are orphaned. */
  lemma EntryLeavesOrdersMatchedIff(c: Config, s: State, pe: PendingEntry, entry: real, qty: real, openedAt: int)
    requires OrdersInv(s)
    ensures OrdersMatch(FinalizeSLTP(c, s, pe, entry, qty, openedAt)) <==> s.ex.open.Keys == {}
  {
    var s' := FinalizeSLTP(c, s, pe, entry, qty, openedAt);
    forall id | id in s.ex.open
      ensures id in s'.ex.open && !NamesStop(s'.position.value, id) && !NamesLimit(s'.position.value, id)
    {
    }
  }

  lemma EarlyTP2LeavesStop(c: Config, s: State, id: OrderId, price: real, qty: real, now: int)
    requires OrdersInv(s) && s.position.Some? && id in s.ex.open
    requires id == s.position.value.tp2OrderId && !s.position.value.tp1Filled
    ensures var s' := HandleUpdate(c, AfterFill(s, id), FillUpdate(id, price, qty), now);
            && s'.position.None?
            && s.position.value.slOrderId in s'.ex.open
            && s.position.value.tpOrderId in s'.ex.open
  {
  }
}
