/** What PnL a close persists: exactly, per closing path, and over whole runs. */
module ExitPnl {
  import opened Options
  import opened Rounding
  import opened PositionSpec
  import opened Lifecycle
  import O = OpenOrders

  // ---------------------------------------------------------------- one close

  /** A short's gain leg by leg: TP1's share at TP1's price, the rest at the exit. */
  function LegPnl(c: Config, p: Position, exit: real): real {
    if p.tp1Filled
    then (p.entryPrice - p.tp1FillPrice) * TP1Share(c, p) + (p.entryPrice - exit) * (p.originalQty - TP1Share(c, p))
    else (p.entryPrice - exit) * p.originalQty
  }

  lemma GrossIsLegs(c: Config, p: Position, exit: real)
    ensures GrossPnl(c, p, exit) == LegPnl(c, p, exit)
  {
  }

  predicate NewExit(s: State, s': State, p: Position, pnl: real) {
    && s'.position.None?
    && |s'.results| == |s.results| + 1
    && s'.results[..|s.results|] == s.results
    && s'.results[|s.results|].pos.tradeId == p.tradeId
    && s'.results[|s.results|].pnl == pnl
  }

  /** TP2, force-close and manual closes persist the leg sum to eight decimals,
      less the funding fee once; so does a stop hit before TP1. */
  lemma ClosePathsPersistNetPnl(c: Config, s: State, p: Position, price: real)
    requires p.tradeId != NIL_TRADE
    ensures var net := Round8(LegPnl(c, p, price)) - Fee(p);
            && NewExit(s, TP2Fill(c, s, p, price), p, net)
            && NewExit(s, ForceCloseConfirmed(c, s, p, price), p, net)
            && NewExit(s, ManualClose(c, s, p, price), p, net)
            && (!p.tp1Filled ==> NewExit(s, HardSLFill(s, p, price), p, net))
            && LegPnl(c, p, price) - Fee(p) - HALF_UNIT <= net <= LegPnl(c, p, price) - Fee(p) + HALF_UNIT
  {
    GrossIsLegs(c, p, price);
    Round8Within(LegPnl(c, p, price));
  }

  /** The breakeven stop after TP1 subtracts the fee twice: it persists the net
      PnL exactly when no fee was paid. */
  lemma BreakevenStopPersistsNetPnlIff(c: Config, s: State, p: Position, price: real)
    requires p.tradeId != NIL_TRADE
    ensures NewExit(s, TrailingSLFill(c, s, p, price), p, Round8(LegPnl(c, p, price)) - 2.0 * Fee(p))
    ensures NewExit(s, TrailingSLFill(c, s, p, price), p, Round8(LegPnl(c, p, price)) - Fee(p)) <==> Fee(p) == 0.0
  {
    GrossIsLegs(c, p, price);
  }

  /** The close price persisted with a force or manual close is the last fill's
      price, not the average: it reproduces the gross PnL exactly when TP1 took no
      share of the position or filled at that same price. */
  lemma ReportedCloseIsAverageIff(c: Config, s: State, p: Position, price: real)
    requires p.tradeId != NIL_TRADE
    ensures var m, f := ManualClose(c, s, p, price), ForceCloseConfirmed(c, s, p, price);
            && m.results[|s.results|].avgClose == price
            && f.results[|s.results|].avgClose == price
    ensures PnlAt(p, price) == LegPnl(c, p, price)
       <==> !p.tp1Filled || TP1Share(c, p) == 0.0 || p.tp1FillPrice == price
  {
  }

  // ---------------------------------------------------------------- whole runs

  /** Orders fill at their own price; no settlement fee is charged. */
  predicate Priced(c: Config, y: System, t: Timed) {
    && O.Orderly(c, y, t)
    && (t.event.Fill? ==> y.st.ex.open[t.event.id].price == t.event.price)
  }

  predicate PricedRun(c: Config, y: System, run: seq<Timed>)
    decreases |run|
  {
    run != [] ==> Priced(c, y, run[0]) && PricedRun(c, Step(c, y, run[0]), run[1..])
  }

  function StopLossPnl(c: Config, p: Position): real {
    -(c.slPct / 100.0 * p.entryPrice * p.originalQty)
  }

  function TP1Pnl(c: Config, p: Position): real {
    c.tpPct / 100.0 * p.entryPrice * TP1Share(c, p)
  }

  function TP2Pnl(c: Config, p: Position): real {
    TP1Pnl(c, p) + c.tp2Pct / 100.0 * p.entryPrice * (p.originalQty - TP1Share(c, p))
  }

  /** A position the sweep protected without its entry record has one take-profit
      order over its whole quantity. */
  function FullTPPnl(c: Config, p: Position): real {
    c.tpPct / 100.0 * p.entryPrice * p.originalQty
  }

  /** The value each close reason is planned to have. */
  predicate PlannedExit(c: Config, e: Exit) {
    match e.reason
    case HARD_SL => e.outcome == LOSS && e.pnl == Round8(StopLossPnl(c, e.pos))
    case BREAKEVEN_SL => e.outcome == BREAKEVEN && e.pnl == 0.0
    case TP_TRAIL => e.pnl == Round8(TP1Pnl(c, e.pos))
    case TP2 => e.outcome == WIN &&
                e.pnl == Round8(if e.pos.tp2OrderId == NO_ORDER then FullTPPnl(c, e.pos) else TP2Pnl(c, e.pos))
    case _ => false
  }

  predicate OrderAt(ex: Exchange, id: OrderId, price: real) {
    id in ex.open ==> ex.open[id].price == price
  }

  predicate PlannedPrices(c: Config, ex: Exchange, p: Position) {
    && !p.feePaid
    && OrderAt(ex, p.tp2OrderId, TP2Price(c, p.entryPrice))
    && if p.tp1Filled
       then
         && p.tp1FillPrice == TakeProfitPrice(p.entryPrice, c.tpPct)
         && OrderAt(ex, p.trailingSLOrderId, p.entryPrice)
       else
         && (O.IsStub(p) ==> !p.breakevenMoved)
         && OrderAt(ex, p.slOrderId, if p.breakevenMoved then p.entryPrice else StopLossPrice(c, p.entryPrice))
         && OrderAt(ex, p.tpOrderId, TakeProfitPrice(p.entryPrice, c.tpPct))
  }

  predicate Plan(c: Config, y: System) {
    && (y.st.position.Some? ==> PlannedPrices(c, y.st.ex, y.st.position.value))
    && (forall t :: t in y.st.pending ==> y.st.pending[t].tpPct == c.tpPct)
    && (forall e :: e in y.st.results ==> PlannedExit(c, e))
  }

  lemma PnlAtPlannedPrices(c: Config, p: Position)
    ensures PnlAt(p, p.entryPrice) == 0.0
    ensures PnlAt(p, StopLossPrice(c, p.entryPrice)) == StopLossPnl(c, p)
    ensures PnlAt(p, TakeProfitPrice(p.entryPrice, c.tpPct)) == FullTPPnl(c, p)
  {
  }

  lemma LegsAtPlannedPrices(c: Config, p: Position)
    requires p.tp1Filled && p.tp1FillPrice == TakeProfitPrice(p.entryPrice, c.tpPct)
    ensures LegPnl(c, p, p.entryPrice) == TP1Pnl(c, p)
    ensures LegPnl(c, p, TP2Price(c, p.entryPrice)) == TP2Pnl(c, p)
    ensures LegPnl(c, p, TakeProfitPrice(p.entryPrice, c.tpPct)) == FullTPPnl(c, p)
  {
  }

  lemma EngineKeepsPlan(c: Config, y: System, t: Timed)
    requires O.Inv(y) && Plan(c, y) && y.clock == t.now && Priced(c, y, t)
    requires t.event.Enter? || t.event.WriteStub? || t.event.Expire?
    ensures Plan(c, Apply(c, y, t.event))
  {
  }

  lemma FinalizeKeepsPlan(c: Config, y: System, pe: PendingEntry, entry: real, qty: real, openedAt: int)
    requires O.Inv(y) && Plan(c, y) && pe.tradeId in y.st.pending && pe.tpPct == c.tpPct
    ensures Plan(c, y.(st := FinalizeSLTP(c, y.st, pe, entry, qty, openedAt)))
  {
  }

  lemma BreakevenKeepsPlan(c: Config, y: System)
    requires O.Inv(y) && Plan(c, y) && y.st.position.Some? && !y.st.position.value.tp1Filled
    ensures Plan(c, y.(st := MoveToBreakeven(y.st, y.st.position.value)))
  {
  }

  lemma TickKeepsPlan(c: Config, y: System, market: Option<real>, d: Decision)
    requires O.Inv(y) && Plan(c, y) && !d.ForceClose?
    ensures Plan(c, y.(st := Check(c, y.st, market, y.clock, d)))
  {
    if y.st.position.Some? && market.Some? && market.value != 0.0 {
      hide Check;
      var q := O.CheckCases(c, y.st, market, y.clock, d);
      var s1, s' := y.st.(position := Some(q)), Check(c, y.st, market, y.clock, d);
      assert Plan(c, y.(st := s1));
      if s' != s1 {
        O.SameOrdersKeep(y.st, q);
        O.EntryKeptFits(y, s1);
        BreakevenKeepsPlan(c, y.(st := s1));
      }
    }
  }

  lemma SweepKeepsPlan(c: Config, y: System, live: LivePosition)
    requires O.Inv(y) && Plan(c, y)
    ensures Plan(c, y.(st := Sweep(c, y.st, y.clock, live)))
  {
    if y.st.position.Some? && IsUnprotectedStub(c, y.st.position.value, y.clock) {
      var p := y.st.position.value;
      if p.tradeId in y.st.pending {
        FinalizeKeepsPlan(c, y, y.st.pending[p.tradeId], p.entryPrice, p.originalQty, p.openedAt);
      }
    }
  }

  lemma ExitKeepsPlan(c: Config, y: System, s': State)
    requires Plan(c, y) && s'.position.None? && s'.pending == y.st.pending
    requires s'.results == y.st.results
          || (|s'.results| > 0 && s'.results == y.st.results + [s'.results[|s'.results| - 1]]
              && PlannedExit(c, s'.results[|s'.results| - 1]))
    ensures Plan(c, y.(st := s'))
  {
  }

  /** TP1 filling at its price: the whole position if there is no TP2, else the
      breakeven stop takes over. */
  lemma TP1KeepsPlan(c: Config, y: System, p: Position, qty: real)
    requires O.Inv(y) && Plan(c, y) && y.st.position == Some(p) && !p.tp1Filled && p.tpOrderId in y.st.ex.open
    ensures Plan(c, y.(st := TP1Fill(c, AfterFill(y.st, p.tpOrderId), p, y.st.ex.open[p.tpOrderId].price, qty)))
  {
    var s, price := AfterFill(y.st, p.tpOrderId), y.st.ex.open[p.tpOrderId].price;
    if p.tp2OrderId == NO_ORDER {
      var q := p.(tp1Filled := true, tp1FillPrice := price, slOrderId := NO_ORDER);
      GrossIsLegs(c, q, price);
      LegsAtPlannedPrices(c, q);
      ExitKeepsPlan(c, y, TP1Fill(c, s, p, price, qty));
    }
  }

  lemma TP2KeepsPlan(c: Config, y: System, p: Position)
    requires O.Inv(y) && Plan(c, y) && y.st.position == Some(p) && p.tp1Filled && p.tp2OrderId in y.st.ex.open
    ensures Plan(c, y.(st := TP2Fill(c, AfterFill(y.st, p.tp2OrderId), p, y.st.ex.open[p.tp2OrderId].price)))
  {
    var s, price := AfterFill(y.st, p.tp2OrderId), y.st.ex.open[p.tp2OrderId].price;
    GrossIsLegs(c, p, price);
    LegsAtPlannedPrices(c, p);
    ExitKeepsPlan(c, y, TP2Fill(c, s, p, price));
  }

  lemma TrailingKeepsPlan(c: Config, y: System, p: Position)
    requires O.Inv(y) && Plan(c, y) && y.st.position == Some(p) && p.tp1Filled && p.trailingSLOrderId in y.st.ex.open
    ensures Plan(c, y.(st := TrailingSLFill(c, AfterFill(y.st, p.trailingSLOrderId), p,
                                            y.st.ex.open[p.trailingSLOrderId].price)))
  {
    var s, price := AfterFill(y.st, p.trailingSLOrderId), y.st.ex.open[p.trailingSLOrderId].price;
    GrossIsLegs(c, p, price);
    LegsAtPlannedPrices(c, p);
    ExitKeepsPlan(c, y, TrailingSLFill(c, s, p, price));
  }

  lemma StopKeepsPlan(c: Config, y: System, p: Position)
    requires O.Inv(y) && Plan(c, y) && y.st.position == Some(p) && !p.tp1Filled && p.slOrderId in y.st.ex.open
    ensures Plan(c, y.(st := HardSLFill(AfterFill(y.st, p.slOrderId), p, y.st.ex.open[p.slOrderId].price)))
  {
    var s, price := AfterFill(y.st, p.slOrderId), y.st.ex.open[p.slOrderId].price;
    PnlAtPlannedPrices(c, p);
    ExitKeepsPlan(c, y, HardSLFill(s, p, price));
  }

  lemma FillKeepsPlan(c: Config, y: System, t: Timed)
    requires O.Inv(y) && Plan(c, y) && y.clock == t.now && t.event.Fill? && Priced(c, y, t)
    ensures Plan(c, Apply(c, y, t.event))
  {
    hide Plan, TP1Fill, TP2Fill, TrailingSLFill, HardSLFill;
    var p, id, qty := y.st.position.value, t.event.id, t.event.qty;
    if !p.tp1Filled {
      if id == p.tpOrderId { TP1KeepsPlan(c, y, p, qty); } else { StopKeepsPlan(c, y, p); }
    } else {
      if id == p.tp2OrderId { TP2KeepsPlan(c, y, p); } else { TrailingKeepsPlan(c, y, p); }
    }
  }

  lemma ClockKeepsPlan(c: Config, y: System, now: int)
    requires Plan(c, y)
    ensures Plan(c, AdvanceClock(y, now))
  {
  }

  lemma StepKeepsPlan(c: Config, y: System, t: Timed)
    requires O.Inv(y) && Plan(c, y) && Priced(c, y, t)
    ensures Plan(c, Step(c, y, t))
  {
    hide Plan, O.Inv, Check, Sweep, FinalizeSLTP, CloseUpdate;
    var y0 := AdvanceClock(y, t.now);
    ClockKeepsPlan(c, y, t.now);
    O.ClockKeeps(y, t.now);
    match t.event {
      case Tick(market, d) => TickKeepsPlan(c, y0, market, d);
      case SweepTick(live) => SweepKeepsPlan(c, y0, live);
      case Fill(_, _, _) => FillKeepsPlan(c, y0, t);
      case Other(_) =>
      case EntryFill(trade, price, qty, tradedAt) =>
        EntryKeepsPlan(c, y0, trade, price, qty, tradedAt);
      case _ => EngineKeepsPlan(c, y0, t);
    }
  }

  lemma EntryKeepsPlan(c: Config, y: System, t: TradeId, price: real, qty: real, tradedAt: int)
    requires O.Inv(y) && Plan(c, y)
    ensures Plan(c, Apply(c, y, EntryFill(t, price, qty, tradedAt)))
  {
    hide FinalizeSLTP;
    if t in y.st.pending && price != 0.0 {
      var pe := y.st.pending[t];
      FinalizeKeepsPlan(c, y, pe, price, qty, tradedAt);
    }
  }

  lemma {:induction false} RunKeepsPlan(c: Config, y: System, run: seq<Timed>)
    requires O.Inv(y) && Plan(c, y) && PricedRun(c, y, run)
    ensures Plan(c, Run(c, y, run))
    decreases |run|
  {
    if run != [] {
      StepKeepsPlan(c, y, run[0]);
      O.StepKeeps(c, y, run[0]);
      RunKeepsPlan(c, Step(c, y, run[0]), run[1..]);
    }
  }

  /** Every result a run persists is one of the planned ones, to eight decimals. */
  lemma EveryExitIsPlanned(c: Config, y: System, run: seq<Timed>)
    requires Idle(y) && y.st.ex.failing == {} && PricedRun(c, y, run)
    ensures forall e :: e in Run(c, y, run).st.results ==> PlannedExit(c, e)
  {
    RunKeepsPlan(c, y, run);
  }

  predicate SaneConfig(c: Config) {
    c.slPct >= 0.0 && c.tpPct >= 0.0 && c.tp2Pct >= 0.0 && 0.0 <= c.tp1SizePct <= 100.0
  }

  /** Hence no run loses more than slPct per cent of a trade's entry notional. */
  lemma NoExitLosesMoreThanTheStop(c: Config, y: System, run: seq<Timed>)
    requires Idle(y) && y.st.ex.failing == {} && PricedRun(c, y, run) && SaneConfig(c)
    ensures forall e :: e in Run(c, y, run).st.results && e.pos.entryPrice >= 0.0 && e.pos.originalQty >= 0.0 ==>
                          e.pnl >= StopLossPnl(c, e.pos) - HALF_UNIT
  {
    EveryExitIsPlanned(c, y, run);
    forall e | e in Run(c, y, run).st.results && e.pos.entryPrice >= 0.0 && e.pos.originalQty >= 0.0
      ensures e.pnl >= StopLossPnl(c, e.pos) - HALF_UNIT
    {
      PlannedExitBounded(c, e);
    }
  }

  lemma PlannedExitBounded(c: Config, e: Exit)
    requires PlannedExit(c, e) && SaneConfig(c) && e.pos.entryPrice >= 0.0 && e.pos.originalQty >= 0.0
    ensures e.pnl >= StopLossPnl(c, e.pos) - HALF_UNIT
  {
    var p := e.pos;
    GainsNotNegative(c, p);
    Round8Within(StopLossPnl(c, p));
    Round8Within(TP1Pnl(c, p));
    Round8Within(TP2Pnl(c, p));
    Round8Within(FullTPPnl(c, p));
  }

  lemma GainsNotNegative(c: Config, p: Position)
    requires SaneConfig(c) && p.entryPrice >= 0.0 && p.originalQty >= 0.0
    ensures StopLossPnl(c, p) <= 0.0 <= TP1Pnl(c, p) <= TP2Pnl(c, p)
    ensures 0.0 <= FullTPPnl(c, p)
  {
    var f := c.tp1SizePct / 100.0;
    ShareSplits(c, p, f);
    NonNegProduct3(c.slPct / 100.0, p.entryPrice, p.originalQty);
    NonNegProduct3(c.tpPct / 100.0, p.entryPrice, p.originalQty);
    NonNegProduct3(c.tpPct / 100.0, p.entryPrice, TP1Share(c, p));
    NonNegProduct3(c.tp2Pct / 100.0, p.entryPrice, p.originalQty - TP1Share(c, p));
  }

  lemma ShareSplits(c: Config, p: Position, f: real)
    requires SaneConfig(c) && p.originalQty >= 0.0 && f == c.tp1SizePct / 100.0
    ensures 0.0 <= TP1Share(c, p) <= p.originalQty
  {
    assert TP1Share(c, p) == p.originalQty * f;
    NonNegProduct(p.originalQty, f);
    NonNegProduct(p.originalQty, 1.0 - f);
    assert p.originalQty * (1.0 - f) == p.originalQty - p.originalQty * f;
  }

  lemma NonNegProduct(a: real, b: real)
    requires a >= 0.0 && b >= 0.0
    ensures a * b >= 0.0
  {
  }

  lemma NonNegProduct3(a: real, b: real, x: real)
    requires a >= 0.0 && b >= 0.0 && x >= 0.0
    ensures a * b * x >= 0.0
  {
  }

  lemma {:induction false} RunOnwards(c: Config, y: System, a: seq<Timed>, b: seq<Timed>)
    requires PricedRun(c, y, a) && PricedRun(c, Run(c, y, a), b)
    ensures PricedRun(c, y, a + b) && Run(c, y, a + b) == Run(c, Run(c, y, a), b)
    decreases |a|
  {
    if a == [] {
      assert a + b == b;
    } else {
      RunOnwards(c, Step(c, y, a[0]), a[1..], b);
      assert (a + b)[0] == a[0] && (a + b)[1..] == a[1..] + b;
    }
  }

  lemma OneStep(c: Config, y: System, t: Timed)
    requires Priced(c, y, t)
    ensures PricedRun(c, y, [t]) && Run(c, y, [t]) == Step(c, y, t)
  {
  }

  /** A position as finalizeSLTP opens it, its three orders resting at their prices. */
  predicate Opened(c: Config, y: System, t: TradeId, entry: real, k: nat) {
    && y.st.ex.failing == {} && y.st.ex.calls == k + 4 && y.st.results == []
    && y.st.position.Some?
    && var p := y.st.position.value;
    && p.tradeId == t && p.entryPrice == entry && !p.tp1Filled && !p.feePaid
    && p.slOrderId == k + 2 && p.tpOrderId == k + 3 && p.tp2OrderId == k + 4
    && p.trailingOrderId == NO_ORDER && p.trailingSLOrderId == NO_ORDER
    && y.st.ex.open.Keys == {k + 2, k + 3, k + 4}
    && y.st.ex.open[k + 3].price == TakeProfitPrice(entry, c.tpPct)
    && y.st.ex.open[k + 4].price == TP2Price(c, entry)
    && y.stubDue == map[]
  }

  function Entering(y: System, pe: PendingEntry, entry: real, qty: real): seq<Timed> {
    Placing(y, pe, entry) + [At(y.clock, EntryFill(pe.tradeId, entry, qty, y.clock))]
  }

  function Placing(y: System, pe: PendingEntry, entry: real): seq<Timed> {
    [At(y.clock, Enter(pe))] + [At(y.clock, WriteStub(pe.tradeId, entry, y.clock))]
  }

  lemma PlacingWritesStub(c: Config, y: System, pe: PendingEntry, entry: real)
    requires Idle(y) && y.st.ex.failing == {} && pe.tradeId != NIL_TRADE
    requires pe.expiresAt == y.clock + PENDING_TTL && pe.tpPct == c.tpPct
    ensures PricedRun(c, y, Placing(y, pe, entry))
    ensures var y' := Run(c, y, Placing(y, pe, entry));
            && y'.st == y.st.(ex := y.st.ex.(calls := y.st.ex.calls + 1), position := Some(Stub(pe, entry, y.clock)),
                              pending := map[pe.tradeId := pe])
            && y'.clock == y.clock && y'.stubDue == map[]
  {
    var e1, e2 := Placing(y, pe, entry)[0], Placing(y, pe, entry)[1];
    OneStep(c, y, e1);
    OneStep(c, Step(c, y, e1), e2);
    RunOnwards(c, y, [e1], [e2]);
  }

  lemma EnteringOpens(c: Config, y: System, pe: PendingEntry, entry: real, qty: real)
    requires Idle(y) && y.st.ex.failing == {} && pe.tradeId != NIL_TRADE
    requires pe.expiresAt == y.clock + PENDING_TTL && pe.tpPct == c.tpPct && entry != 0.0
    ensures PricedRun(c, y, Entering(y, pe, entry, qty))
    ensures Opened(c, Run(c, y, Entering(y, pe, entry, qty)), pe.tradeId, entry, y.st.ex.calls)
    ensures Run(c, y, Entering(y, pe, entry, qty)).clock == y.clock
  {
    hide Run, PricedRun;
    PlacingWritesStub(c, y, pe, entry);
    var y2 := Run(c, y, Placing(y, pe, entry));
    OneStep(c, y2, At(y.clock, EntryFill(pe.tradeId, entry, qty, y.clock)));
    RunOnwards(c, y, Placing(y, pe, entry), [At(y.clock, EntryFill(pe.tradeId, entry, qty, y.clock))]);
  }

  /** TP1 then TP2 fill at their prices. */
  function Exiting(c: Config, now: int, entry: real, k: nat): seq<Timed> {
    [At(now, Fill(k + 3, TakeProfitPrice(entry, c.tpPct), 0.0))] + [At(now, Fill(k + 4, TP2Price(c, entry), 0.0))]
  }

  lemma ExitingCloses(c: Config, y: System, t: TradeId, entry: real, k: nat)
    requires Opened(c, y, t, entry, k) && t != NIL_TRADE
    ensures PricedRun(c, y, Exiting(c, y.clock, entry, k))
    ensures var s := Run(c, y, Exiting(c, y.clock, entry, k)).st;
            && s.position.None? && |s.results| == 1
            && s.results[0].pos.tradeId == t && s.results[0].pos.tp2OrderId == k + 4 && s.results[0].reason == TP2
  {
    var e1, e2 := Exiting(c, y.clock, entry, k)[0], Exiting(c, y.clock, entry, k)[1];
    var y1 := Step(c, y, e1);
    OneStep(c, y, e1);
    assert y1.st.position.Some? && y1.st.position.value.tp1Filled;
    assert y1.st.ex.open == y.st.ex.open - {k + 3} - {k + 2} + map[k + 6 := Stop(entry)];
    OneStep(c, y1, e2);
    RunOnwards(c, y, [e1], [e2]);
  }

  /** The runs spoken of include the intended one: entry, stub, fill, TP1, TP2.
      It persists exactly one result, a win worth both take-profits. */
  lemma IntendedTrade(c: Config, y: System, pe: PendingEntry, entry: real, qty: real)
    requires Idle(y) && y.st.ex.failing == {} && pe.tradeId != NIL_TRADE
    requires pe.expiresAt == y.clock + PENDING_TTL && pe.tpPct == c.tpPct && entry != 0.0
    ensures var run := Entering(y, pe, entry, qty) + Exiting(c, y.clock, entry, y.st.ex.calls);
            && PricedRun(c, y, run)
            && var s := Run(c, y, run).st;
            && s.position.None? && |s.results| == 1
            && s.results[0].pos.tradeId == pe.tradeId && s.results[0].outcome == WIN
            && s.results[0].pnl == Round8(TP2Pnl(c, s.results[0].pos))
  {
    var a, b := Entering(y, pe, entry, qty), Exiting(c, y.clock, entry, y.st.ex.calls);
    EnteringOpens(c, y, pe, entry, qty);
    ExitingCloses(c, Run(c, y, a), pe.tradeId, entry, y.st.ex.calls);
    RunOnwards(c, y, a, b);
    EveryExitIsPlanned(c, y, a + b);
    var s := Run(c, y, a + b).st;
    assert s.results[0] in s.results && PlannedExit(c, s.results[0]);
  }
}
