/** How much each take-profit order of a position buys back, over whole runs. */
module OrderSizes {
  import opened Options
  import opened PositionSpec
  import opened Lifecycle
  import O = OpenOrders

  /** TP1's part of a position. */
  function Share(c: Config, p: Position): real {
    p.originalQty * c.tp1SizePct / 100.0
  }

  predicate LimitOf(ex: Exchange, id: OrderId, qty: real) {
    id in ex.open ==> ex.open[id].Limit? && ex.open[id].qty == qty
  }

  /** TP1 rests with its share and TP2 with the rest; a take-profit without TP2
      (as the sweep places it) covers the whole position. */
  predicate Sized(c: Config, s: State) {
    match s.position
    case None => true
    case Some(p) =>
      && LimitOf(s.ex, p.tp2OrderId, p.originalQty - Share(c, p))
      && (!p.tp1Filled ==> LimitOf(s.ex, p.tpOrderId, if p.tp2OrderId == NO_ORDER then p.originalQty else Share(c, p)))
  }

  /** What is left of the position is what its resting take-profits buy back. */
  predicate QuantityLeft(c: Config, s: State) {
    match s.position
    case None => true
    case Some(p) => p.quantity == if p.tp1Filled then p.originalQty - Share(c, p) else p.originalQty
  }

  lemma FinalizeSized(c: Config, s: State, pe: PendingEntry, entry: real, qty: real, openedAt: int)
    requires O.OrdersInv(s)
    ensures var s' := FinalizeSLTP(c, s, pe, entry, qty, openedAt); Sized(c, s') && QuantityLeft(c, s')
  {
    var filled := if qty == 0.0 then pe.quantity else qty;
    assert filled * (c.tp1SizePct / 100.0) == filled * c.tp1SizePct / 100.0;
  }

  lemma EmergencySized(c: Config, s: State, live: LivePosition)
    requires O.OrdersInv(s) && s.position.Some? && O.IsStub(s.position.value)
    ensures var s' := EmergencyProtect(c, s, s.position.value, live); Sized(c, s') && QuantityLeft(c, s')
  {
  }

  /** A check tracks prices and may replace the stop; sizes stay. */
  lemma CheckSized(c: Config, s: State, market: Option<real>, now: int, d: Decision)
    requires O.OrdersInv(s) && Sized(c, s) && !d.ForceClose?
    ensures var s' := Check(c, s, market, now, d); Sized(c, s') && (QuantityLeft(c, s) ==> QuantityLeft(c, s'))
  {
    hide PnlAbove, PnlBelow, BreakevenPrice;
  }

  /** A fill of its own size, or one that reports none. */
  predicate Whole(y: System, t: Timed) {
    t.event.Fill? && t.event.id in y.st.ex.open && y.st.ex.open[t.event.id].Limit? ==>
      t.event.qty == 0.0 || t.event.qty == y.st.ex.open[t.event.id].qty
  }

  lemma FillSized(c: Config, y: System, t: Timed)
    requires O.Inv(y) && Sized(c, y.st) && y.clock == t.now && t.event.Fill? && O.Orderly(c, y, t)
    ensures Sized(c, Apply(c, y, t.event).st)
    ensures QuantityLeft(c, y.st) && Whole(y, t) ==> QuantityLeft(c, Apply(c, y, t.event).st)
  {
    hide AvgClosePrice, PnlAt, FinalPnl;
  }

  lemma StepSized(c: Config, y: System, t: Timed)
    requires O.Inv(y) && O.Orderly(c, y, t) && Sized(c, y.st)
    ensures Sized(c, Step(c, y, t).st)
    ensures QuantityLeft(c, y.st) && Whole(y, t) ==> QuantityLeft(c, Step(c, y, t).st)
  {
    hide O.Inv, Check, Sweep, FinalizeSLTP, CloseUpdate;
    var y0 := AdvanceClock(y, t.now);
    O.ClockKeeps(y, t.now);
    InvOrders(y0);
    match t.event {
      case Tick(market, d) => CheckSized(c, y0.st, market, t.now, d);
      case SweepTick(live) => SweepKeepsSizes(c, y0, live);
      case Fill(_, _, _) => FillSized(c, y0, t);
      case EntryFill(trade, price, qty, tradedAt) =>
        if trade in y0.st.pending && price != 0.0 {
          FinalizeSized(c, y0.st, y0.st.pending[trade], price, qty, tradedAt);
        }
      case _ => EngineSized(c, y0, t);
    }
  }

  lemma InvOrders(y: System)
    requires O.Inv(y)
    ensures O.OrdersInv(y.st)
  {
  }

  lemma SweepKeepsSizes(c: Config, y: System, live: LivePosition)
    requires O.Inv(y) && Sized(c, y.st)
    ensures Sized(c, Sweep(c, y.st, y.clock, live))
    ensures QuantityLeft(c, y.st) ==> QuantityLeft(c, Sweep(c, y.st, y.clock, live))
  {
    if y.st.position.Some? && IsUnprotectedStub(c, y.st.position.value, y.clock) {
      hide FinalizeSLTP, EmergencyProtect, Sized, QuantityLeft;
      var p := y.st.position.value;
      if p.tradeId in y.st.pending {
        FinalizeSized(c, y.st, y.st.pending[p.tradeId], p.entryPrice, p.originalQty, p.openedAt);
      } else {
        EmergencySized(c, y.st, live);
      }
    }
  }

  /** The engine's stub names no order, and nothing rests before it. */
  lemma EngineSized(c: Config, y: System, t: Timed)
    requires O.OrdersInv(y.st) && Sized(c, y.st) && y.clock == t.now && O.Orderly(c, y, t)
    requires t.event.Enter? || t.event.WriteStub? || t.event.Expire? || t.event.Other?
    ensures Sized(c, Apply(c, y, t.event).st)
    ensures QuantityLeft(c, y.st) ==> QuantityLeft(c, Apply(c, y, t.event).st)
  {
    hide CloseUpdate;
  }

  /** Over every orderly run with succeeding executor calls, TP1 and TP2 rest with
      TP1's share and the rest: together the whole position. */
  lemma {:induction false} RunSized(c: Config, y: System, run: seq<Timed>)
    requires O.Inv(y) && Sized(c, y.st) && O.OrderlyRun(c, y, run)
    ensures Sized(c, Run(c, y, run).st)
    decreases |run|
  {
    hide O.Inv, Sized, Step, O.Orderly;
    if run != [] {
      StepSized(c, y, run[0]);
      O.StepKeeps(c, y, run[0]);
      RunSized(c, Step(c, y, run[0]), run[1..]);
    }
  }

  lemma TakeProfitsSized(c: Config, y: System, run: seq<Timed>)
    requires Idle(y) && y.st.ex.failing == {} && O.OrderlyRun(c, y, run)
    ensures var s := Run(c, y, run).st;
            s.position.Some? ==>
              var p := s.position.value;
              && (p.tp2OrderId in s.ex.open ==> s.ex.open[p.tp2OrderId].Limit? &&
                                                s.ex.open[p.tp2OrderId].qty == p.originalQty - p.originalQty * c.tp1SizePct / 100.0)
              && (!p.tp1Filled && p.tpOrderId in s.ex.open ==>
                    s.ex.open[p.tpOrderId].Limit? &&
                    s.ex.open[p.tpOrderId].qty == if p.tp2OrderId == NO_ORDER then p.originalQty
                                                  else p.originalQty * c.tp1SizePct / 100.0)
  {
    RunSized(c, y, run);
  }

  predicate WholeRun(c: Config, y: System, run: seq<Timed>)
    decreases |run|
  {
    run != [] ==> O.Orderly(c, y, run[0]) && Whole(y, run[0]) && WholeRun(c, Step(c, y, run[0]), run[1..])
  }

  /** If orders fill whole, the cached quantity is what the resting take-profits buy
      back: the position before TP1, the rest after it. */
  lemma {:induction false} QuantityIsWhatRests(c: Config, y: System, run: seq<Timed>)
    requires O.Inv(y) && Sized(c, y.st) && QuantityLeft(c, y.st) && WholeRun(c, y, run)
    ensures Sized(c, Run(c, y, run).st) && QuantityLeft(c, Run(c, y, run).st)
    decreases |run|
  {
    hide O.Inv, Sized, QuantityLeft, Step, O.Orderly, Whole;
    if run != [] {
      StepSized(c, y, run[0]);
      O.StepKeeps(c, y, run[0]);
      QuantityIsWhatRests(c, Step(c, y, run[0]), run[1..]);
    }
  }
}
