/** One symbol run live: the position manager object, driven by the events of a
    run in turn.  What is proved of runs is thereby proved of the object. */
module LiveSymbol {
  import opened Options
  import opened Lifecycle
  import opened PositionManagement
  import S = PositionSpec
  import O = OpenOrders
  import C = ClosedOnce

  class Live {
    const manager: PositionManager
    var clock: int
    var stubDue: map<S.TradeId, S.PendingEntry>
    var used: set<S.TradeId>

    ghost function Abs(): System
      reads this, manager
    {
      System(manager.State(), clock, stubDue, used)
    }

    constructor (cfg: S.Config, y: System)
      ensures fresh(manager) && manager.cfg == cfg && Abs() == y
    {
      manager := new PositionManager(cfg, y.st);
      clock, stubDue, used := y.clock, y.stubDue, y.used;
    }

    /** The engine's part: pending record and market order, then the stub. */
    method Enter(pe: S.PendingEntry)
      modifies this, manager
      ensures Abs() == EnterStep(old(Abs()), pe)
    {
      used := used + {pe.tradeId};
      manager.pending := manager.pending[pe.tradeId := pe];
      var r := manager.exchange.Market();
      manager.exchange := r.0;
      if !r.1 {
        manager.pending := manager.pending - {pe.tradeId};
        assert manager.pending == old(manager.pending) - {pe.tradeId};
        return;
      }
      stubDue := stubDue[pe.tradeId := pe];
    }

    method WriteStub(t: S.TradeId, price: real, openedAt: int)
      modifies this, manager
      ensures Abs() == WriteStubStep(old(Abs()), t, price, openedAt)
    {
      if t in stubDue {
        if manager.position.None? {
          manager.position := Some(Stub(stubDue[t], price, openedAt));
        }
        stubDue := stubDue - {t};
      }
    }

    method Deliver(e: Event)
      modifies this, manager
      ensures Abs() == Apply(manager.cfg, old(Abs()), e)
    {
      hide S.HandleUpdate, S.Check, S.Sweep, C.Keeps, C.ClosesCached;
      match e {
        case Enter(pe) => Enter(pe);
        case WriteStub(t, price, openedAt) => WriteStub(t, price, openedAt);
        case EntryFill(t, price, qty, tradedAt) =>
          manager.HandleUserDataEvent(EntryUpdate(t, price, qty), tradedAt);
        case Expire(t) => manager.pending := manager.pending - {t};
        case Tick(market, decision) => manager.Check(market, clock, decision);
        case Fill(id, price, qty) =>
          manager.exchange := manager.exchange.(open := manager.exchange.open - {id});
          manager.HandleUserDataEvent(FillUpdate(id, price, qty), clock);
        case Other(u) => manager.HandleUserDataEvent(u, clock);
        case SweepTick(live) => manager.RepairUnprotectedPosition(clock, live);
      }
    }

    /** A whole run.  Orderly ones from a fresh start leave exactly the orders the
        cached position names; well-timed ones persist no trade twice. */
    method Play(run: seq<Timed>)
      modifies this, manager
      ensures Abs() == Run(manager.cfg, old(Abs()), run)
      ensures Idle(old(Abs())) && old(manager.exchange.failing) == {} && O.OrderlyRun(manager.cfg, old(Abs()), run) ==>
                O.OrdersMatch(manager.State())
      ensures C.Ledger(old(Abs())) && C.WellTimedRun(manager.cfg, old(Abs()), run) ==> C.DistinctTrades(manager.results)
    {
      hide Apply, O.OrderlyRun, O.OrdersMatch, C.WellTimedRun, C.Ledger, C.DistinctTrades;
      for i := 0 to |run|
        invariant Abs() == Run(manager.cfg, old(Abs()), run[..i])
      {
        ghost var before := Abs();
        clock, manager.pending := run[i].now, DropExpired(manager.pending, run[i].now);
        Deliver(run[i].event);
        RunJoin(manager.cfg, old(Abs()), run[..i], [run[i]]);
        RunCons(manager.cfg, before, run[i], []);
        assert run[..i + 1] == run[..i] + [run[i]] && [run[i]] == [run[i]] + [];
      }
      assert run[..|run|] == run;
      if Idle(old(Abs())) && old(manager.exchange.failing) == {} && O.OrderlyRun(manager.cfg, old(Abs()), run) {
        O.OpenOrdersAlwaysMatch(manager.cfg, old(Abs()), run);
      }
      if C.Ledger(old(Abs())) && C.WellTimedRun(manager.cfg, old(Abs()), run) {
        C.EachTradeClosedAtMostOnce(manager.cfg, old(Abs()), run);
      }
    }
  }
}
