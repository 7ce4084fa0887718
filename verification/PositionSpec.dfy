/** What each lock-holding handler of internal/execution/position_manager.go does
    to the exchange's open orders, the cached position, the pending records and
    the persisted results of one symbol.  The lock, the cache field, the pending
    protection key and the force-close entry are all keyed by symbol, so symbols
    do not share any of this state. */
module PositionSpec {
  import opened Options
  import opened Rounding

  /** Client order ids and trade ids.  0 stands for "" and for uuid.Nil. */
  type OrderId = nat
  type TradeId = nat
  const NO_ORDER: OrderId := 0
  const NIL_TRADE: TradeId := 0

  const SECOND: int := 1_000_000_000
  const BREAKEVEN_HOLD: int := 600 * SECOND
  const RETRY_INTERVAL: int := 5 * SECOND
  const MAX_RETRIES: nat := 5

  datatype Config = Config(
    slPct: real,
    tpPct: real,
    tp1SizePct: real,
    tp2Pct: real,
    breakevenActivationPct: real,
    forceSLOn: bool,
    forceSLStart: int,
    forceSLGatePct: real,
    forceSLEscalatePct: real,
    forceSLSlow: int,
    forceSLFast: int,
    sweepGrace: int)

  datatype Order =
    | Stop(price: real)             // closes the whole position when triggered
    | Limit(price: real, qty: real) // reduce-only

  /** The executor.  Call number n fails exactly when n is in `failing`; a failing
      call changes nothing at the exchange.  Ids of placed orders are fresh. */
  datatype Exchange = Exchange(failing: set<nat>, calls: nat, open: map<OrderId, Order>) {

    function Place(o: Order): (Exchange, Option<OrderId>) {
      if calls in failing then (this.(calls := calls + 1), None)
      else (this.(calls := calls + 1, open := open[calls + 1 := o]), Some(calls + 1))
    }

    function Cancel(id: OrderId): Exchange {
      if calls in failing then this.(calls := calls + 1)
      else this.(calls := calls + 1, open := open - {id})
    }

    function CancelIfSet(id: OrderId): Exchange {
      if id == NO_ORDER then this else Cancel(id)
    }

    /** A market order fills at once and never rests; only its answer matters. */
    function Market(): (Exchange, bool) {
      (this.(calls := calls + 1), calls !in failing)
    }

    predicate NoMoreFailures() {
      forall n :: n in failing ==> n < calls
    }
  }

  datatype Position = Position(
    tradeId: TradeId,
    entryPrice: real,
    quantity: real,
    originalQty: real,
    stopLoss: real,
    takeProfit: real,
    slOrderId: OrderId,
    tpOrderId: OrderId,
    tp2OrderId: OrderId,
    tp2Price: real,
    trailingOrderId: OrderId,
    trailingSLOrderId: OrderId,
    openedAt: int,
    breakevenMoved: bool,
    tp1Filled: bool,
    tp1FillPrice: real,
    lastForceSLCheck: Option<int>,
    forceSLCount: nat,
    highSinceEntry: real,
    lowSinceEntry: real,
    feePaid: bool,
    feePaidPct: real,
    feePaidAmount: real)

  /** An entry whose market order was sent and whose fill is not yet confirmed. */
  datatype PendingEntry = PendingEntry(
    tradeId: TradeId, quantity: real, tpPct: real, expiresAt: int)

  datatype PendingProtection = PendingProtection(
    needsSL: bool,
    needsTP: bool,
    entryPrice: real,
    quantity: real,
    tp1Qty: real,
    stopLoss: real,
    takeProfit: real,
    retries: nat,
    lastAttempt: Option<int>)

  datatype Outcome = WIN | PARTIAL_WIN | BREAKEVEN | LOSS
  datatype Reason = TP2 | TP_TRAIL | HARD_SL | BREAKEVEN_SL | FORCE_CLOSE | MANUAL

  /** One call of UpdateResult, with the position that was closed. */
  datatype Exit = Exit(pos: Position, avgClose: real, pnl: real, outcome: Outcome, reason: Reason)

  datatype State = State(
    ex: Exchange,
    position: Option<Position>,
    pending: map<TradeId, PendingEntry>,
    protection: Option<PendingProtection>,
    forceCloseId: Option<OrderId>,
    results: seq<Exit>)

  /** A user-data order event.  A market sell carries the trade id as client id. */
  datatype OrderUpdate = OrderUpdate(
    clientId: nat,
    filled: bool,
    marketSell: bool,
    avgPrice: real,
    filledQty: real,
    reduceOnly: bool)

  /** The force-SL engine's answer; NoAnswer stands for its error return. */
  datatype Decision = NoAnswer | Hold | ForceClose

  /** What executor.GetPosition returns to emergencyProtect. */
  datatype LivePosition = ReadFailed | NoPosition | Live(entryPrice: real, quantity: real)

  // ---------------------------------------------------------------- pure helpers

  /** rawPnlPct > pct, where a zero entry price divides to minus infinity. */
  predicate PnlAbove(p: Position, price: real, pct: real) {
    p.entryPrice != 0.0 && (p.entryPrice - price) / p.entryPrice * 100.0 > pct
  }

  predicate PnlBelow(p: Position, price: real, pct: real) {
    p.entryPrice == 0.0 || (p.entryPrice - price) / p.entryPrice * 100.0 < pct
  }

  predicate ElapsedAtLeast(since: Option<int>, now: int, d: int) {
    since.None? || now - since.value >= d
  }

  predicate ShouldCheckForceSL(c: Config, p: Position, price: real, now: int) {
    && now - p.openedAt >= c.forceSLStart
    && PnlBelow(p, price, c.forceSLGatePct)
    && ElapsedAtLeast(p.lastForceSLCheck, now,
                      if PnlBelow(p, price, c.forceSLEscalatePct) then c.forceSLFast else c.forceSLSlow)
  }

  predicate IsUnprotectedStub(c: Config, p: Position, now: int) {
    && p.slOrderId == NO_ORDER
    && p.tpOrderId == NO_ORDER
    && p.tradeId != NIL_TRADE
    && now - p.openedAt >= c.sweepGrace
  }

  function TP1Share(c: Config, p: Position): real {
    p.originalQty * c.tp1SizePct / 100.0
  }

  function AvgClosePrice(c: Config, p: Position, exit: real): real {
    if !p.tp1Filled || p.originalQty == 0.0 then exit
    else
      var tp1Qty := TP1Share(c, p);
      (p.tp1FillPrice * tp1Qty + exit * (p.originalQty - tp1Qty)) / p.originalQty
  }

  /** A short's PnL when its whole quantity is bought back at one price. */
  function PnlAt(p: Position, price: real): real {
    (p.entryPrice - price) * p.originalQty
  }

  function GrossPnl(c: Config, p: Position, exit: real): real {
    PnlAt(p, AvgClosePrice(c, p, exit))
  }

  function Fee(p: Position): real {
    if p.feePaid then p.feePaidAmount else 0.0
  }

  function FinalPnl(pnl: real, p: Position): real {
    pnl - Fee(p)
  }

  // ---------------------------------------------------------------- closing

  function PersistClose(s: State, p: Position, avgClose: real, pnl: real, outcome: Outcome, reason: Reason): State {
    s.(position := None,
    results := if p.tradeId == NIL_TRADE then s.results
    else s.results + [Exit(p, avgClose, FinalPnl(pnl, p), outcome, reason)])
  }

  function TP2Fill(c: Config, s: State, p: Position, price: real): State {
    PersistClose(s.(ex := s.ex.CancelIfSet(p.trailingSLOrderId)), p,
                 AvgClosePrice(c, p, price), Round8(GrossPnl(c, p, price)), WIN, TP2)
  }

  function TrailingSLFill(c: Config, s: State, p: Position, price: real): State {
    var pnl := FinalPnl(Round8(GrossPnl(c, p, price)), p);
    PersistClose(s.(ex := s.ex.CancelIfSet(p.tp2OrderId)), p,
                 AvgClosePrice(c, p, price), pnl, if pnl <= 0.0 then BREAKEVEN else WIN, TP_TRAIL)
  }

  function HardSLFill(s: State, p: Position, price: real): State {
    var pnl := Round8(PnlAt(p, price));
    PersistClose(s.(ex := s.ex.CancelIfSet(p.tpOrderId).CancelIfSet(p.tp2OrderId)), p, price, pnl,
                 if !p.breakevenMoved then LOSS else if pnl > 0.0 then PARTIAL_WIN else BREAKEVEN,
                 if p.breakevenMoved then BREAKEVEN_SL else HARD_SL)
  }

  function ManualClose(c: Config, s: State, p: Position, price: real): State {
    var pnl := GrossPnl(c, p, price);
    PersistClose(s, p, price, Round8(pnl), if FinalPnl(pnl, p) > 0.0 then WIN else LOSS, MANUAL)
  }

  function ForceCloseConfirmed(c: Config, s: State, p: Position, price: real): State {
    var pnl := Round8(GrossPnl(c, p, price));
    var final := FinalPnl(pnl, p);
    var outcome := if p.tp1Filled then WIN
                   else if final > 0.0 then PARTIAL_WIN
                   else if final > -1.5 then BREAKEVEN
                   else LOSS;
    PersistClose(s.(forceCloseId := None), p, price, pnl, outcome, FORCE_CLOSE)
  }

  function TP1Fill(c: Config, s: State, p0: Position, price: real, filledQty: real): State {
    var tp1Qty := if filledQty == 0.0 then TP1Share(c, p0) else filledQty;
    var p := p0.(tp1Filled := true, tp1FillPrice := price, slOrderId := NO_ORDER);
    var s := s.(ex := s.ex.CancelIfSet(p0.slOrderId));
    if p.tp2OrderId == NO_ORDER then TP2Fill(c, s, p, price)
    else
      var (ex, id) := s.ex.Place(Stop(p.entryPrice));
      var p := if id.Some? then p.(trailingSLOrderId := id.value, breakevenMoved := true) else p;
      s.(ex := ex, position := Some(p.(quantity := p.originalQty - tp1Qty)))
  }

  // ---------------------------------------------------------------- force close

  function CancelAllOrders(ex: Exchange, p: Position): Exchange {
    ex.CancelIfSet(p.slOrderId).CancelIfSet(p.tpOrderId).CancelIfSet(p.trailingOrderId)
    .CancelIfSet(p.trailingSLOrderId).CancelIfSet(p.tp2OrderId)
  }

  /** The force-close client id is minted before the market order is sent. */
  function ForceClosePosition(s: State, p: Position): State {
    var (ex, ok) := s.ex.Market();
    if ok then s.(ex := CancelAllOrders(ex, p), forceCloseId := Some(ex.calls))
    else s.(ex := ex, forceCloseId := None)
  }

  // ---------------------------------------------------------------- entry and protection

  function StopLossPrice(c: Config, entry: real): real {
    entry + entry * (c.slPct / 100.0)
  }

  function TakeProfitPrice(entry: real, pct: real): real {
    entry - entry * (pct / 100.0)
  }

  function TP1Qty(c: Config, qty: real): real {
    qty * (c.tp1SizePct / 100.0)
  }

  function TP2Price(c: Config, entry: real): real {
    entry * (1.0 - c.tp2Pct / 100.0)
  }

  function FreshProtection(c: Config, pe: PendingEntry, entry: real, qty: real): PendingProtection {
    PendingProtection(true, true, entry, qty, TP1Qty(c, qty),
                      StopLossPrice(c, entry), TakeProfitPrice(entry, pe.tpPct), 0, None)
  }

  function OpenedPosition(c: Config, pe: PendingEntry, entry: real, qty: real, openedAt: int,
                          sl: OrderId, tp: OrderId, tp2: OrderId): Position {
    Position(pe.tradeId, entry, qty, qty, StopLossPrice(c, entry), TakeProfitPrice(entry, pe.tpPct),
             sl, tp, tp2, TP2Price(c, entry), NO_ORDER, NO_ORDER, openedAt,
             false, false, 0.0, None, 0, entry, entry, false, 0.0, 0.0)
  }

  function FinalizeSLTP(c: Config, s: State, pe: PendingEntry, entry: real, filledQty: real, openedAt: int): State {
    var qty := if filledQty == 0.0 then pe.quantity else filledQty;
    var tp1Qty := TP1Qty(c, qty);
    var retry := Some(FreshProtection(c, pe, entry, qty));
    var (ex1, sl) := s.ex.Place(Stop(StopLossPrice(c, entry)));
    if sl.None? then s.(ex := ex1, protection := retry)
    else
      var (ex2, tp) := ex1.Place(Limit(TakeProfitPrice(entry, pe.tpPct), tp1Qty));
      if tp.None? then s.(ex := ex2.Cancel(sl.value), protection := retry)
      else
        var (ex3, tp2) := ex2.Place(Limit(TP2Price(c, entry), qty - tp1Qty));
        s.(ex := ex3,
        position := Some(OpenedPosition(c, pe, entry, qty, openedAt, sl.value, tp.value, tp2.GetOr(NO_ORDER))),
        pending := s.pending - {pe.tradeId})
  }

  /** One placement round of retryProtection: the stop first, then TP1 and TP2. */
  function RetrySL(s: State, p: Position, pp: PendingProtection): (State, Position, PendingProtection) {
    if !pp.needsSL then (s, p, pp)
    else
      var (ex, sl) := s.ex.Place(Stop(pp.stopLoss));
      if sl.None? then (s.(ex := ex), p, pp)
      else
        var q := p.(slOrderId := sl.value, stopLoss := pp.stopLoss);
        (s.(ex := ex, position := Some(q)), q, pp.(needsSL := false))
  }

  function RetryTP(c: Config, s: State, p: Position, pp: PendingProtection): (State, Position, PendingProtection) {
    if !pp.needsTP then (s, p, pp)
    else
      var (ex1, tp) := s.ex.Place(Limit(pp.takeProfit, pp.tp1Qty));
      if tp.None? then (s.(ex := ex1), p, pp)
      else
        var price2 := TP2Price(c, pp.entryPrice);
        var (ex2, tp2) := ex1.Place(Limit(price2, pp.quantity - pp.tp1Qty));
        var q := p.(tpOrderId := tp.value, takeProfit := pp.takeProfit);
        var q := if tp2.Some? then q.(tp2OrderId := tp2.value, tp2Price := price2) else q;
        (s.(ex := ex2, position := Some(q)), q, pp.(needsTP := false))
  }

  function RetryProtection(c: Config, s: State, p: Position, pp: PendingProtection, now: int): State {
    if !ElapsedAtLeast(pp.lastAttempt, now, RETRY_INTERVAL) then s
    else if pp.retries >= MAX_RETRIES then ForceClosePosition(s, p).(protection := None)
    else
      var (s1, p1, pp1) := RetrySL(s, p, pp);
      var (s2, p2, pp2) := RetryTP(c, s1, p1, pp1);
      if !pp2.needsSL && !pp2.needsTP then s2.(protection := None)
      else s2.(protection := Some(pp2.(retries := pp2.retries + 1, lastAttempt := Some(now))))
  }

  function ConfirmedEntry(p: Position, live: LivePosition): real {
    if live.Live? && live.entryPrice > 0.0 then live.entryPrice else p.entryPrice
  }

  function ConfirmedQty(p: Position, live: LivePosition): real {
    if live.Live? && live.quantity > 0.0 then live.quantity
    else if p.originalQty == 0.0 then p.quantity
    else p.originalQty
  }

  function Protected(p: Position, entry: real, qty: real, stopLoss: real, takeProfit: real,
                     sl: Option<OrderId>, tp: Option<OrderId>): Position {
    p.(entryPrice := entry, quantity := qty, originalQty := qty, stopLoss := stopLoss, takeProfit := takeProfit,
    highSinceEntry := entry, lowSinceEntry := entry,
    slOrderId := sl.GetOr(p.slOrderId), tpOrderId := tp.GetOr(p.tpOrderId))
  }

  function EmergencyProtect(c: Config, s: State, p: Position, live: LivePosition): State {
    if live.NoPosition? then s.(position := None)
    else
      var entry, qty := ConfirmedEntry(p, live), ConfirmedQty(p, live);
      var stopLoss, takeProfit := StopLossPrice(c, entry), TakeProfitPrice(entry, c.tpPct);
      var (ex1, sl) := s.ex.Place(Stop(stopLoss));
      var (ex2, tp) := ex1.Place(Limit(takeProfit, qty));
      s.(ex := ex2,
      position := Some(Protected(p, entry, qty, stopLoss, takeProfit, sl, tp)),
      protection := if sl.None? || tp.None?
      then Some(PendingProtection(sl.None?, tp.None?, entry, qty, qty, stopLoss, takeProfit, 0, None))
      else s.protection)
  }

  function Sweep(c: Config, s: State, now: int, live: LivePosition): State {
    if s.position.None? || !IsUnprotectedStub(c, s.position.value, now) then s
    else
      var p := s.position.value;
      if p.tradeId in s.pending
      then FinalizeSLTP(c, s, s.pending[p.tradeId], p.entryPrice, p.originalQty, p.openedAt)
      else EmergencyProtect(c, s, p, live)
  }

  // ---------------------------------------------------------------- the 1s check

  function TrackPrice(p: Position, price: real): Position {
    p.(highSinceEntry := if price > p.highSinceEntry then price else p.highSinceEntry,
    lowSinceEntry := if p.lowSinceEntry == 0.0 || price < p.lowSinceEntry then price else p.lowSinceEntry)
  }

  predicate BreakevenDue(c: Config, p: Position, price: real, now: int) {
    && !p.breakevenMoved
    && !p.tp1Filled
    && PnlAbove(p, price, c.breakevenActivationPct + if p.feePaid then p.feePaidPct * 100.0 else 0.0)
    && now - p.openedAt >= BREAKEVEN_HOLD
  }

  function BreakevenPrice(p: Position): real {
    p.entryPrice - if p.feePaid then p.feePaidPct * p.entryPrice else 0.0
  }

  /** A failed replacement returns before the cache is written. */
  function MoveToBreakeven(s: State, p: Position): State {
    var (ex, sl) := s.ex.CancelIfSet(p.slOrderId).Place(Stop(BreakevenPrice(p)));
    if sl.None? then s.(ex := ex)
    else s.(ex := ex,
            position := Some(p.(stopLoss := p.entryPrice, breakevenMoved := true, slOrderId := sl.value)))
  }

  function CheckPrices(c: Config, s: State, p0: Position, price: real, now: int, decision: Decision): State {
    var p := TrackPrice(p0, price);
    var asked := c.forceSLOn && !p.tp1Filled && ShouldCheckForceSL(c, p, price, now);
    if asked && decision.ForceClose? then ForceClosePosition(s, p)
    else
      var p := if asked then p.(lastForceSLCheck := Some(now), forceSLCount := p.forceSLCount + 1) else p;
      if BreakevenDue(c, p, price, now) then MoveToBreakeven(s, p)
      else s.(position := Some(p))
  }

  function Check(c: Config, s: State, price: Option<real>, now: int, decision: Decision): State {
    if s.position.None? || price.None? || price.value == 0.0 then s
    else
      var p := s.position.value;
      var s := if s.protection.Some? then RetryProtection(c, s, p, s.protection.value, now) else s;
      CheckPrices(c, s, s.position.GetOr(p), price.value, now, decision)
  }

  // ---------------------------------------------------------------- order events

  /** The switch takes the first field equal to the event's id. */
  function CloseUpdate(c: Config, s: State, p: Position, u: OrderUpdate): State {
    if u.clientId == p.tpOrderId then
      if p.tp1Filled then s else TP1Fill(c, s, p, u.avgPrice, u.filledQty)
    else if u.clientId == p.tp2OrderId then TP2Fill(c, s, p, u.avgPrice)
    else if u.clientId == p.trailingOrderId then s
    else if u.clientId == p.trailingSLOrderId then TrailingSLFill(c, s, p, u.avgPrice)
    else if u.clientId == p.slOrderId then HardSLFill(s, p, u.avgPrice)
    else if !u.reduceOnly then s
    else if s.forceCloseId == Some(u.clientId) then ForceCloseConfirmed(c, s, p, u.avgPrice)
    else ManualClose(c, s, p, u.avgPrice)
  }

  /** tradedAt is the exchange's time of the trade. */
  function HandleUpdate(c: Config, s: State, u: OrderUpdate, tradedAt: int): State {
    if !u.filled then s
    else if u.marketSell then
      if u.clientId in s.pending && u.avgPrice != 0.0
      then FinalizeSLTP(c, s, s.pending[u.clientId], u.avgPrice, u.filledQty, tradedAt)
      else s
    else if s.position.None? then s
    else CloseUpdate(c, s, s.position.value, u)
  }
}
