/** internal/execution/position_manager.go: the handlers as methods over mutable
    state.  Every method does what its function in PositionSpec says, so that the
    runs of Lifecycle are runs of these methods, and each states what OpenOrders,
    ExitPnl or ClosedOnce prove of that step. */
module PositionManagement {
  import opened Options
  import opened Rounding
  import S = PositionSpec
  import O = OpenOrders
  import E = ExitPnl
  import C = ClosedOnce

  class PositionManager {
    const cfg: S.Config
    var exchange: S.Exchange
    var position: Option<S.Position>
    var pending: map<S.TradeId, S.PendingEntry>
    var protection: Option<S.PendingProtection>
    var forceCloseId: Option<S.OrderId>
    var results: seq<S.Exit>

    ghost function State(): S.State
      reads this
    {
      S.State(exchange, position, pending, protection, forceCloseId, results)
    }

    constructor (cfg: S.Config, s: S.State)
      ensures this.cfg == cfg && State() == s
    {
      this.cfg := cfg;
      exchange, position, pending := s.ex, s.position, s.pending;
      protection, forceCloseId, results := s.protection, s.forceCloseId, s.results;
    }

    // -------------------------------------------------------------- executor calls

    method Place(o: S.Order) returns (id: Option<S.OrderId>)
      modifies this`exchange
      ensures (exchange, id) == old(exchange).Place(o)
    {
      var r := exchange.Place(o);
      exchange, id := r.0, r.1;
    }

    method CancelIfSet(id: S.OrderId)
      modifies this`exchange
      ensures exchange == old(exchange).CancelIfSet(id)
    {
      if id != S.NO_ORDER {
        exchange := exchange.Cancel(id);
      }
    }

    method CancelAllOrders(pos: S.Position)
      modifies this`exchange
      ensures exchange == S.CancelAllOrders(old(exchange), pos)
    {
      CancelIfSet(pos.slOrderId);
      CancelIfSet(pos.tpOrderId);
      CancelIfSet(pos.trailingOrderId);
      CancelIfSet(pos.trailingSLOrderId);
      CancelIfSet(pos.tp2OrderId);
    }

    // -------------------------------------------------------------- closing

    method PersistClose(pos: S.Position, avgClose: real, pnl: real, outcome: S.Outcome, reason: S.Reason)
      modifies this`position, this`results
      ensures State() == S.PersistClose(old(State()), pos, avgClose, pnl, outcome, reason)
    {
      var final := S.FinalPnl(pnl, pos);
      if pos.tradeId != S.NIL_TRADE {
        results := results + [S.Exit(pos, avgClose, final, outcome, reason)];
      }
      position := None;
    }

    method HandleTP2Fill(pos: S.Position, price: real)
      modifies this
      ensures State() == S.TP2Fill(cfg, old(State()), pos, price)
      ensures pos.tradeId != S.NIL_TRADE ==>
                E.NewExit(old(State()), State(), pos, Round8(E.LegPnl(cfg, pos, price)) - S.Fee(pos))
    {
      CancelIfSet(pos.trailingSLOrderId);
      var avgClose := S.AvgClosePrice(cfg, pos, price);
      var pnl := Round8(S.PnlAt(pos, avgClose));
      PersistClose(pos, avgClose, pnl, S.WIN, S.TP2);
      if pos.tradeId != S.NIL_TRADE {
        E.ClosePathsPersistNetPnl(cfg, old(State()), pos, price);
      }
    }

    method HandleTrailingSLFill(pos: S.Position, price: real)
      modifies this
      ensures State() == S.TrailingSLFill(cfg, old(State()), pos, price)
      ensures pos.tradeId != S.NIL_TRADE ==>
                E.NewExit(old(State()), State(), pos, Round8(E.LegPnl(cfg, pos, price)) - 2.0 * S.Fee(pos))
    {
      CancelIfSet(pos.tp2OrderId);
      var avgClose := S.AvgClosePrice(cfg, pos, price);
      var pnl := Round8(S.PnlAt(pos, avgClose));
      pnl := S.FinalPnl(pnl, pos);
      var outcome := S.WIN;
      if pnl <= 0.0 {
        outcome := S.BREAKEVEN;
      }
      PersistClose(pos, avgClose, pnl, outcome, S.TP_TRAIL);
      if pos.tradeId != S.NIL_TRADE {
        E.BreakevenStopPersistsNetPnlIff(cfg, old(State()), pos, price);
      }
    }

    method HandleHardSLFill(pos: S.Position, price: real)
      modifies this
      ensures State() == S.HardSLFill(old(State()), pos, price)
      ensures pos.tradeId != S.NIL_TRADE && !pos.tp1Filled ==>
                E.NewExit(old(State()), State(), pos, Round8(E.LegPnl(cfg, pos, price)) - S.Fee(pos))
    {
      CancelIfSet(pos.tpOrderId);
      CancelIfSet(pos.tp2OrderId);
      var pnl := Round8(S.PnlAt(pos, price));
      var outcome, reason := S.LOSS, S.HARD_SL;
      if pos.breakevenMoved {
        outcome := S.BREAKEVEN;
        if pnl > 0.0 {
          outcome := S.PARTIAL_WIN;
        }
        reason := S.BREAKEVEN_SL;
      }
      PersistClose(pos, price, pnl, outcome, reason);
      if pos.tradeId != S.NIL_TRADE {
        E.ClosePathsPersistNetPnl(cfg, old(State()), pos, price);
      }
    }

    method RecordManualClose(pos: S.Position, price: real)
      modifies this
      ensures State() == S.ManualClose(cfg, old(State()), pos, price)
      ensures pos.tradeId != S.NIL_TRADE ==>
                E.NewExit(old(State()), State(), pos, Round8(E.LegPnl(cfg, pos, price)) - S.Fee(pos))
    {
      var avgClose := S.AvgClosePrice(cfg, pos, price);
      var pnl := S.PnlAt(pos, avgClose);
      var outcome := if S.FinalPnl(pnl, pos) > 0.0 then S.WIN else S.LOSS;
      pnl := Round8(pnl);
      PersistClose(pos, price, pnl, outcome, S.MANUAL);
      if pos.tradeId != S.NIL_TRADE {
        E.ClosePathsPersistNetPnl(cfg, old(State()), pos, price);
      }
    }

    method ConfirmForceClose(pos: S.Position, price: real)
      modifies this
      ensures State() == S.ForceCloseConfirmed(cfg, old(State()), pos, price)
      ensures pos.tradeId != S.NIL_TRADE ==>
                E.NewExit(old(State()), State(), pos, Round8(E.LegPnl(cfg, pos, price)) - S.Fee(pos))
    {
      forceCloseId := None;
      var avgClose := S.AvgClosePrice(cfg, pos, price);
      var pnl := Round8(S.PnlAt(pos, avgClose));
      var final := S.FinalPnl(pnl, pos);
      var outcome;
      if pos.tp1Filled {
        outcome := S.WIN;
      } else if final > 0.0 {
        outcome := S.PARTIAL_WIN;
      } else if final > -1.5 {
        outcome := S.BREAKEVEN;
      } else {
        outcome := S.LOSS;
      }
      PersistClose(pos, price, pnl, outcome, S.FORCE_CLOSE);
      if pos.tradeId != S.NIL_TRADE {
        E.ClosePathsPersistNetPnl(cfg, old(State()), pos, price);
      }
    }

    method HandleTP1Fill(p: S.Position, price: real, filledQty: real)
      modifies this
      ensures State() == S.TP1Fill(cfg, old(State()), p, price, filledQty)
    {
      var pos := p.(tp1Filled := true, tp1FillPrice := price);
      var tp1Qty := filledQty;
      if tp1Qty == 0.0 {
        tp1Qty := S.TP1Share(cfg, pos);
      }
      var remaining := pos.originalQty - tp1Qty;
      if pos.slOrderId != S.NO_ORDER {
        CancelIfSet(pos.slOrderId);
        pos := pos.(slOrderId := S.NO_ORDER);
      }
      if pos.tp2OrderId == S.NO_ORDER {
        HandleTP2Fill(pos, price);
        return;
      }
      var stop := Place(S.Stop(pos.entryPrice));
      if stop.Some? {
        pos := pos.(trailingSLOrderId := stop.value, breakevenMoved := true);
      }
      pos := pos.(quantity := remaining);
      position := Some(pos);
    }

    // -------------------------------------------------------------- force close

    method ForceClose(pos: S.Position)
      modifies this
      ensures State() == S.ForceClosePosition(old(State()), pos)
      ensures forceCloseId.Some? <==> old(exchange).calls !in old(exchange).failing
      ensures forceCloseId.None? ==> exchange.open == old(exchange).open
    {
      forceCloseId := Some(exchange.calls + 1);
      var r := exchange.Market();
      exchange := r.0;
      if !r.1 {
        forceCloseId := None;
        return;
      }
      CancelAllOrders(pos);
    }

    // -------------------------------------------------------------- entry and protection

    method FinalizeSLTP(pe: S.PendingEntry, fillPrice: real, filledQty: real, openedAt: int)
      modifies this
      ensures State() == S.FinalizeSLTP(cfg, old(State()), pe, fillPrice, filledQty, openedAt)
      ensures O.OrdersInv(old(State())) && (old(position).Some? ==> O.IsStub(old(position).value)) ==> O.OrdersInv(State())
    {
      var qty := filledQty;
      if qty == 0.0 {
        qty := pe.quantity;
      }
      var stopLoss := S.StopLossPrice(cfg, fillPrice);
      var tp1Price := S.TakeProfitPrice(fillPrice, pe.tpPct);
      var tp1Qty := S.TP1Qty(cfg, qty);
      var retry := S.PendingProtection(true, true, fillPrice, qty, tp1Qty, stopLoss, tp1Price, 0, None);

      var sl := Place(S.Stop(stopLoss));
      if sl.None? {
        protection := Some(retry);
        return;
      }
      var tp := Place(S.Limit(tp1Price, tp1Qty));
      if tp.None? {
        exchange := exchange.Cancel(sl.value);
        protection := Some(retry);
        return;
      }
      var tp2Price := S.TP2Price(cfg, fillPrice);
      var tp2 := Place(S.Limit(tp2Price, qty - tp1Qty));
      position := Some(S.OpenedPosition(cfg, pe, fillPrice, qty, openedAt, sl.value, tp.value, tp2.GetOr(S.NO_ORDER)));
      pending := pending - {pe.tradeId};
      if O.OrdersInv(old(State())) && (old(position).Some? ==> O.IsStub(old(position).value)) {
        O.FinalizeOrders(cfg, old(State()), pe, fillPrice, filledQty, openedAt);
      }
    }

    method RetryStop(p: S.Position, record: S.PendingProtection) returns (pos: S.Position, pp: S.PendingProtection)
      modifies this
      ensures (State(), pos, pp) == S.RetrySL(old(State()), p, record)
    {
      pos, pp := p, record;
      if pp.needsSL {
        var sl := Place(S.Stop(pp.stopLoss));
        if sl.Some? {
          pp := pp.(needsSL := false);
          pos := pos.(slOrderId := sl.value, stopLoss := pp.stopLoss);
          position := Some(pos);
        }
      }
    }

    method RetryTakeProfits(p: S.Position, record: S.PendingProtection)
      returns (pos: S.Position, pp: S.PendingProtection)
      modifies this
      ensures (State(), pos, pp) == S.RetryTP(cfg, old(State()), p, record)
    {
      pos, pp := p, record;
      if pp.needsTP {
        var tp := Place(S.Limit(pp.takeProfit, pp.tp1Qty));
        if tp.Some? {
          var tp2Price := S.TP2Price(cfg, pp.entryPrice);
          var tp2 := Place(S.Limit(tp2Price, pp.quantity - pp.tp1Qty));
          pp := pp.(needsTP := false);
          pos := pos.(tpOrderId := tp.value, takeProfit := pp.takeProfit);
          if tp2.Some? {
            pos := pos.(tp2OrderId := tp2.value, tp2Price := tp2Price);
          }
          position := Some(pos);
        }
      }
    }

    method RetryProtection(p: S.Position, record: S.PendingProtection, now: int)
      modifies this
      ensures State() == S.RetryProtection(cfg, old(State()), p, record, now)
      ensures old(position) == Some(p) ==> C.Keeps(old(State()), State())
    {
      if position == Some(p) {
        C.RetryKeeps(cfg, State(), record, now);
      }
      hide C.Keeps, S.RetrySL, S.RetryTP, S.ForceClosePosition;
      if record.lastAttempt.Some? && now - record.lastAttempt.value < S.RETRY_INTERVAL {
        return;
      }
      if record.retries >= S.MAX_RETRIES {
        ForceClose(p);
        protection := None;
        return;
      }
      var pos, pp := RetryStop(p, record);
      pos, pp := RetryTakeProfits(pos, pp);
      if !pp.needsSL && !pp.needsTP {
        protection := None;
        return;
      }
      pp := pp.(retries := pp.retries + 1, lastAttempt := Some(now));
      protection := Some(pp);
    }

    method EmergencyProtect(p: S.Position, live: S.LivePosition)
      modifies this
      ensures State() == S.EmergencyProtect(cfg, old(State()), p, live)
      ensures O.OrdersInv(old(State())) && old(position) == Some(p) && O.IsStub(p) ==> O.OrdersInv(State())
    {
      if live.NoPosition? {
        position := None;
        return;
      }
      var entryPrice, qty := S.ConfirmedEntry(p, live), S.ConfirmedQty(p, live);
      var stopLoss := S.StopLossPrice(cfg, entryPrice);
      var takeProfit := S.TakeProfitPrice(entryPrice, cfg.tpPct);
      var sl := Place(S.Stop(stopLoss));
      var tp := Place(S.Limit(takeProfit, qty));
      if sl.None? || tp.None? {
        protection := Some(S.PendingProtection(sl.None?, tp.None?, entryPrice, qty, qty, stopLoss, takeProfit, 0, None));
      }
      position := Some(S.Protected(p, entryPrice, qty, stopLoss, takeProfit, sl, tp));
      if O.OrdersInv(old(State())) && old(position) == Some(p) && O.IsStub(p) {
        O.EmergencyOrders(cfg, old(State()), live);
      }
    }

    method RepairUnprotectedPosition(now: int, live: S.LivePosition)
      modifies this
      ensures State() == S.Sweep(cfg, old(State()), now, live)
      ensures (forall t :: t in old(pending) ==> old(pending)[t].tradeId == t) ==> C.Keeps(old(State()), State())
    {
      if position.None? {
        return;
      }
      var pos := position.value;
      if !S.IsUnprotectedStub(cfg, pos, now) {
        return;
      }
      if pos.tradeId in pending {
        FinalizeSLTP(pending[pos.tradeId], pos.entryPrice, pos.originalQty, pos.openedAt);
        return;
      }
      EmergencyProtect(pos, live);
    }

    // -------------------------------------------------------------- the 1s check

    method MoveToBreakeven(pos: S.Position)
      modifies this
      ensures State() == S.MoveToBreakeven(old(State()), pos)
      ensures O.OrdersInv(old(State())) && old(position) == Some(pos) && !pos.tp1Filled ==> O.OrdersInv(State())
    {
      CancelIfSet(pos.slOrderId);
      var sl := Place(S.Stop(S.BreakevenPrice(pos)));
      if sl.None? {
        return;
      }
      position := Some(pos.(stopLoss := pos.entryPrice, breakevenMoved := true, slOrderId := sl.value));
    }

    method CheckPrices(p: S.Position, price: real, now: int, decision: S.Decision)
      modifies this
      ensures State() == S.CheckPrices(cfg, old(State()), p, price, now, decision)
    {
      var pos := S.TrackPrice(p, price);
      if cfg.forceSLOn && !pos.tp1Filled && S.ShouldCheckForceSL(cfg, pos, price, now) {
        if decision == S.ForceClose {
          ForceClose(pos);
          return;
        }
        pos := pos.(lastForceSLCheck := Some(now), forceSLCount := pos.forceSLCount + 1);
      }
      if S.BreakevenDue(cfg, pos, price, now) {
        MoveToBreakeven(pos);
        return;
      }
      position := Some(pos);
    }

    method Check(price: Option<real>, now: int, decision: S.Decision)
      modifies this
      ensures State() == S.Check(cfg, old(State()), price, now, decision)
      ensures C.Keeps(old(State()), State())
    {
      hide C.Keeps;
      C.CheckKeeps(cfg, State(), price, now, decision);
      if position.None? || price.None? || price.value == 0.0 {
        return;
      }
      var pos := position.value;
      if protection.Some? {
        RetryProtection(pos, protection.value, now);
        if position.Some? {
          pos := position.value;
        }
      }
      CheckPrices(pos, price.value, now, decision);
    }

    // -------------------------------------------------------------- order events

    method HandleUserDataEvent(u: S.OrderUpdate, tradedAt: int)
      modifies this
      ensures State() == S.HandleUpdate(cfg, old(State()), u, tradedAt)
      ensures !u.marketSell ==> C.Keeps(old(State()), State()) || C.ClosesCached(old(State()), State())
    {
      if !u.filled {
        return;
      }
      if u.marketSell {
        if u.clientId in pending && u.avgPrice != 0.0 {
          FinalizeSLTP(pending[u.clientId], u.avgPrice, u.filledQty, tradedAt);
        }
        return;
      }
      if position.None? {
        return;
      }
      var pos := position.value;
      if u.clientId == pos.tpOrderId {
        if !pos.tp1Filled {
          HandleTP1Fill(pos, u.avgPrice, u.filledQty);
        }
      } else if u.clientId == pos.tp2OrderId {
        HandleTP2Fill(pos, u.avgPrice);
      } else if u.clientId == pos.trailingOrderId {
      } else if u.clientId == pos.trailingSLOrderId {
        HandleTrailingSLFill(pos, u.avgPrice);
      } else if u.clientId == pos.slOrderId {
        HandleHardSLFill(pos, u.avgPrice);
      } else if u.reduceOnly {
        if forceCloseId == Some(u.clientId) {
          ConfirmForceClose(pos, u.avgPrice);
        } else {
          RecordManualClose(pos, u.avgPrice);
        }
      }
    }
  }
}
