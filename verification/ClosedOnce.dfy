/** No trade's result is persisted twice, whatever executor calls fail. */
module ClosedOnce {
  import opened Options
  import opened PositionSpec
  import opened Lifecycle

  predicate Closes(c: Config, y: System, t: Timed) {
    |Step(c, y, t).st.results| > |y.st.results|
  }

  /** Trade ids are newly minted.  Nothing else is asked of an event: order events
      of any kind, late, repeated or lost fill events, any failures. */
  predicate Fresh(y: System, t: Timed) {
    t.event.Enter? ==> t.event.entry.tradeId != NIL_TRADE && t.event.entry.tradeId !in y.used
  }

  /** A trade closes only after the engine wrote its stub and with no entry record
      of it left: the record was used, or it expired. */
  predicate WellTimed(c: Config, y: System, t: Timed) {
    && Fresh(y, t)
    && (Closes(c, y, t) ==> y.st.position.Some? && Settled(AdvanceClock(y, t.now), y.st.position.value.tradeId))
  }

  predicate Settled(y: System, id: TradeId) {
    id !in y.stubDue && id !in y.st.pending
  }

  predicate FreshRun(c: Config, y: System, run: seq<Timed>)
    decreases |run|
  {
    run != [] ==> Fresh(y, run[0]) && FreshRun(c, Step(c, y, run[0]), run[1..])
  }

  predicate WellTimedRun(c: Config, y: System, run: seq<Timed>)
    decreases |run|
  {
    run != [] ==> WellTimed(c, y, run[0]) && WellTimedRun(c, Step(c, y, run[0]), run[1..])
  }

  predicate DistinctTrades(results: seq<Exit>) {
    forall i, j :: 0 <= i < j < |results| ==> results[i].pos.tradeId != results[j].pos.tradeId
  }

  /** Records are filed under their own, minted trade ids. */
  predicate Records(y: System) {
    && (forall t :: t in y.st.pending ==> t in y.used && y.st.pending[t].tradeId == t)
    && (forall t :: t in y.stubDue ==> t in y.used && y.stubDue[t].tradeId == t)
    && (y.st.position.Some? ==> y.st.position.value.tradeId in y.used + {NIL_TRADE})
  }

  predicate Ledger(y: System) {
    && Records(y)
    && DistinctTrades(y.st.results)
    && (forall e :: e in y.st.results ==>
                      && e.pos.tradeId in y.used
                      && Settled(y, e.pos.tradeId)
                      && (y.st.position.Some? ==> y.st.position.value.tradeId != e.pos.tradeId))
  }

  /** A handler leaves the results alone and the cached trade what it was (or gone) ... */
  predicate Keeps(s: State, s': State) {
    && s'.pending.Keys <= s.pending.Keys
    && (forall t :: t in s'.pending ==> s'.pending[t] == s.pending[t])
    && s'.results == s.results
    && (s'.position.Some? ==> s.position.Some? && s'.position.value.tradeId == s.position.value.tradeId)
  }

  /** ... or appends the cached trade's exit and removes it from the cache ... */
  predicate ClosesCached(s: State, s': State) {
    && s'.pending == s.pending
    && s.position.Some?
    && s'.position.None?
    && |s'.results| == |s.results| + 1
    && s'.results == s.results + [s'.results[|s.results|]]
    && s'.results[|s.results|].pos.tradeId == s.position.value.tradeId != NIL_TRADE
  }

  /** ... or caches a trade from its entry record. */
  predicate OpensRecorded(s: State, s': State) {
    && s'.pending.Keys <= s.pending.Keys
    && (forall t :: t in s'.pending ==> s'.pending[t] == s.pending[t])
    && s'.results == s.results
    && s'.position.Some? && s'.position.value.tradeId in s.pending
  }

  predicate Handles(s: State, s': State) {
    Keeps(s, s') || ClosesCached(s, s') || OpensRecorded(s, s')
  }

  lemma RoundKeeps(c: Config, s: State, pp: PendingProtection)
    requires s.position.Some?
    ensures var (s1, p1, pp1) := RetrySL(s, s.position.value, pp);
            Keeps(s, s1) && s1.position == Some(p1)
    ensures var (s2, p2, pp2) := RetryTP(c, s, s.position.value, pp);
            Keeps(s, s2) && s2.position == Some(p2)
  {
  }

  lemma RetryKeeps(c: Config, s: State, pp: PendingProtection, now: int)
    requires s.position.Some?
    ensures Keeps(s, RetryProtection(c, s, s.position.value, pp, now))
    ensures RetryProtection(c, s, s.position.value, pp, now).position.Some?
  {
    hide CancelAllOrders, RetrySL, RetryTP;
    RoundKeeps(c, s, pp);
    var (s1, p1, pp1) := RetrySL(s, s.position.value, pp);
    RoundKeeps(c, s1, pp1);
  }

  lemma CheckKeeps(c: Config, s: State, market: Option<real>, now: int, d: Decision)
    ensures Keeps(s, Check(c, s, market, now, d))
  {
    hide PnlAbove, PnlBelow, RetryProtection, CancelAllOrders;
    if s.position.Some? && s.protection.Some? {
      RetryKeeps(c, s, s.protection.value, now);
    }
  }

  lemma SweepKeeps(c: Config, s: State, now: int, live: LivePosition)
    requires forall t :: t in s.pending ==> s.pending[t].tradeId == t
    ensures Keeps(s, Sweep(c, s, now, live))
  {
  }

  lemma CloseUpdateKeeps(c: Config, s: State, u: OrderUpdate)
    requires s.position.Some?
    ensures var s' := CloseUpdate(c, s, s.position.value, u); Keeps(s, s') || ClosesCached(s, s')
  {
    hide AvgClosePrice, PnlAt, FinalPnl, TP1Share;
  }

  lemma OrderEventHandles(c: Config, s: State, u: OrderUpdate, tradedAt: int)
    requires forall t :: t in s.pending ==> s.pending[t].tradeId == t
    ensures Handles(s, HandleUpdate(c, s, u, tradedAt))
  {
    hide CloseUpdate;
    if s.position.Some? {
      CloseUpdateKeeps(c, s, u);
    }
  }

  /** Every event but the engine's own is handled in one of the three ways. */
  lemma EventHandles(c: Config, y: System, t: Timed)
    requires Records(y) && !t.event.Enter? && !t.event.WriteStub?
    ensures var y0, y' := AdvanceClock(y, t.now), Step(c, y, t);
            Handles(y0.st, y'.st) && y'.stubDue == y.stubDue && y'.used == y.used && y'.clock == t.now
  {
    hide Check, Sweep, HandleUpdate;
    var s := AdvanceClock(y, t.now).st;
    match t.event {
      case Tick(market, d) => CheckKeeps(c, s, market, t.now, d);
      case SweepTick(live) => SweepKeeps(c, s, t.now, live);
      case Fill(id, price, qty) => OrderEventHandles(c, AfterFill(s, id), FillUpdate(id, price, qty), t.now);
      case Other(u) => OrderEventHandles(c, s, u, t.now);
      case EntryFill(trade, price, qty, tradedAt) => OrderEventHandles(c, s, EntryUpdate(trade, price, qty), tradedAt);
      case _ =>
    }
  }

  lemma StepKeepsRecords(c: Config, y: System, t: Timed)
    requires Records(y) && Fresh(y, t)
    ensures Records(Step(c, y, t)) && y.used <= Step(c, y, t).used
  {
    if !t.event.Enter? && !t.event.WriteStub? {
      hide Step;
      EventHandles(c, y, t);
    }
  }

  lemma LedgerAfter(y: System, s': State)
    requires Ledger(y) && Handles(y.st, s')
    requires ClosesCached(y.st, s') ==> Settled(y, y.st.position.value.tradeId)
    ensures Ledger(y.(st := s'))
  {
  }

  lemma EngineKeepsLedger(c: Config, y: System, e: Event)
    requires Ledger(y) && (e.Enter? || e.WriteStub?)
    requires e.Enter? ==> e.entry.tradeId != NIL_TRADE && e.entry.tradeId !in y.used
    ensures Ledger(Apply(c, y, e))
  {
  }

  lemma ClockKeepsLedger(y: System, now: int)
    requires Ledger(y)
    ensures Ledger(AdvanceClock(y, now))
  {
  }

  lemma StepKeepsLedger(c: Config, y: System, t: Timed)
    requires Ledger(y) && WellTimed(c, y, t)
    ensures Ledger(Step(c, y, t))
  {
    var y0 := AdvanceClock(y, t.now);
    ClockKeepsLedger(y, t.now);
    if t.event.Enter? || t.event.WriteStub? {
      EngineKeepsLedger(c, y0, t.event);
    } else {
      hide Step, Ledger;
      LedgerRecords(y);
      EventHandles(c, y, t);
      LedgerAfter(y0, Step(c, y, t).st);
    }
  }

  lemma LedgerRecords(y: System)
    requires Ledger(y)
    ensures Records(y)
  {
  }

  /** Over every well-timed run from a consistent start, each trade id reaches
      UpdateResult at most once, and a closed trade is never cached again. */
  lemma {:induction false} EachTradeClosedAtMostOnce(c: Config, y: System, run: seq<Timed>)
    requires Ledger(y) && WellTimedRun(c, y, run)
    ensures DistinctTrades(Run(c, y, run).st.results)
    ensures forall e :: e in Run(c, y, run).st.results && Run(c, y, run).st.position.Some? ==>
                          Run(c, y, run).st.position.value.tradeId != e.pos.tradeId
    decreases |run|
  {
    if run != [] {
      StepKeepsLedger(c, y, run[0]);
      EachTradeClosedAtMostOnce(c, Step(c, y, run[0]), run[1..]);
    }
  }

  // ---------------------------------------------------------------- the condition is exact

  /** Minted, not cached, and nothing left from which it could be cached. */
  predicate Out(y: System, id: TradeId) {
    && id in y.used
    && Settled(y, id)
    && (y.st.position.Some? ==> y.st.position.value.tradeId != id)
  }

  predicate PersistedAgain(before: State, after: State, id: TradeId) {
    exists j :: |before.results| <= j < |after.results| && after.results[j].pos.tradeId == id
  }

  lemma StepStaysOut(c: Config, y: System, t: Timed, id: TradeId)
    requires Records(y) && Fresh(y, t) && Out(y, id)
    ensures Out(Step(c, y, t), id)
    ensures y.st.results <= Step(c, y, t).st.results && !PersistedAgain(y.st, Step(c, y, t).st, id)
  {
    if !t.event.Enter? && !t.event.WriteStub? {
      hide Step;
      EventHandles(c, y, t);
    }
  }

  lemma {:induction false} OutForGood(c: Config, y: System, run: seq<Timed>, id: TradeId)
    requires Records(y) && Out(y, id) && FreshRun(c, y, run)
    ensures y.st.results <= Run(c, y, run).st.results && !PersistedAgain(y.st, Run(c, y, run).st, id)
    decreases |run|
  {
    hide Records, Out, Step, Fresh;
    if run != [] {
      var y1 := Step(c, y, run[0]);
      StepKeepsRecords(c, y, run[0]);
      StepStaysOut(c, y, run[0], id);
      OutForGood(c, y1, run[1..], id);
      var r, s := Run(c, y, run).st.results, y1.st.results;
      forall j | |y.st.results| <= j < |r|
        ensures r[j].pos.tradeId != id
      {
        if j < |s| {
          assert r[j] == s[j];
        }
      }
    }
  }

  /** A reduce-only fill under an id the position does not name. */
  function Unnamed(p: Position): OrderUpdate {
    OrderUpdate(p.slOrderId + p.tpOrderId + p.tp2OrderId + p.trailingOrderId + p.trailingSLOrderId + 1,
                true, false, 0.0, 0.0, true)
  }

  lemma ClosesWhatIsCached(c: Config, y: System, id: TradeId)
    requires y.st.position.Some? && y.st.position.value.tradeId == id != NIL_TRADE
    ensures var t := At(y.clock, Other(Unnamed(y.st.position.value)));
            PersistedAgain(y.st, Step(c, y, t).st, id)
  {
    var t := At(y.clock, Other(Unnamed(y.st.position.value)));
    assert Step(c, y, t).st.results[|y.st.results|].pos.tradeId == id;
  }

  /** The executor's failures still to come. */
  function Ahead(ex: Exchange): set<nat> {
    set n | n in ex.failing && n >= ex.calls
  }

  lemma FillEvent(c: Config, y: System, id: TradeId)
    requires Records(y) && id in y.st.pending && y.clock < y.st.pending[id].expiresAt
    ensures var y' := Step(c, y, At(y.clock, EntryFill(id, 1.0, 0.0, y.clock)));
            && y'.clock == y.clock && y'.st.results == y.st.results
            && if y'.st.position.Some? && y'.st.position.value.tradeId == id then true
               else Records(y') && id in y'.st.pending && y'.st.pending[id] == y.st.pending[id]
                    && Ahead(y'.st.ex) < Ahead(y.st.ex)
  {
    var k, ex' := y.st.ex.calls, Step(c, y, At(y.clock, EntryFill(id, 1.0, 0.0, y.clock))).st.ex;
    if k in y.st.ex.failing {
      assert k in Ahead(y.st.ex) && k !in Ahead(ex');
    } else if k + 1 in y.st.ex.failing {
      assert k + 1 in Ahead(y.st.ex) && k + 1 !in Ahead(ex');
    }
  }

  predicate NoEnter(run: seq<Timed>) {
    forall t :: t in run ==> !t.event.Enter?
  }

  lemma {:induction false} NoEnterFresh(c: Config, y: System, run: seq<Timed>)
    requires NoEnter(run)
    ensures FreshRun(c, y, run)
    decreases |run|
  {
    hide Step;
    if run != [] {
      assert run[0] in run && NoEnter(run[1..]);
      NoEnterFresh(c, Step(c, y, run[0]), run[1..]);
    }
  }

  /** While its entry record is there a trade can be cached from it, after however
      many failing attempts. */
  lemma {:induction false} RecordCaches(c: Config, y: System, id: TradeId) returns (run: seq<Timed>)
    requires Records(y) && id in y.st.pending && y.clock < y.st.pending[id].expiresAt
    ensures NoEnter(run)
    ensures var y' := Run(c, y, run);
            y'.st.position.Some? && y'.st.position.value.tradeId == id && y'.st.results == y.st.results
    decreases Ahead(y.st.ex)
  {
    hide Step, Records;
    var e := At(y.clock, EntryFill(id, 1.0, 0.0, y.clock));
    var y1 := Step(c, y, e);
    FillEvent(c, y, id);
    RunCons(c, y, e, []);
    if y1.st.position.Some? && y1.st.position.value.tradeId == id {
      run := [e] + [];
    } else {
      var rest := RecordCaches(c, y1, id);
      RunCons(c, y, e, rest);
      run := [e] + rest;
    }
  }

  /** So can a trade whose stub is still to be written. */
  lemma StubCaches(c: Config, y: System, id: TradeId)
    requires Records(y) && id in y.stubDue && y.st.position.None?
    ensures var y' := Run(c, y, [At(y.clock, WriteStub(id, 0.0, y.clock))]);
            y'.st.position.Some? && y'.st.position.value.tradeId == id && y'.st.results == y.st.results
  {
    RunCons(c, y, At(y.clock, WriteStub(id, 0.0, y.clock)), []);
    assert [At(y.clock, WriteStub(id, 0.0, y.clock))] + [] == [At(y.clock, WriteStub(id, 0.0, y.clock))];
  }

  /** What a close leaves: the trade uncached, its records as they were. */
  lemma CloseLeaves(c: Config, y: System, t: Timed) returns (id: TradeId)
    requires Records(y) && Closes(c, y, t)
    ensures y.st.position.Some? && id == y.st.position.value.tradeId != NIL_TRADE
    ensures var y0, y1 := AdvanceClock(y, t.now), Step(c, y, t);
            && y1.st.position.None? && y1.st.pending == y0.st.pending && y1.stubDue == y.stubDue
            && y1.used == y.used && y1.clock == t.now && Records(y1)
  {
    if t.event.Enter? || t.event.WriteStub? {
      assert false;
    } else {
      hide Step;
      EventHandles(c, y, t);
      id := y.st.position.value.tradeId;
    }
  }

  ghost predicate CanPersistAgain(c: Config, y: System, id: TradeId) {
    exists run :: FreshRun(c, y, run) && PersistedAgain(y.st, Run(c, y, run).st, id)
  }

  /** Of any close: some later run persists that trade again exactly when its stub
      was still to be written or its entry record still there. */
  lemma ClosedAgainIff(c: Config, y: System, t: Timed)
    requires Records(y) && Closes(c, y, t)
    ensures y.st.position.Some?
    ensures CanPersistAgain(c, Step(c, y, t), y.st.position.value.tradeId)
       <==> !Settled(AdvanceClock(y, t.now), y.st.position.value.tradeId)
  {
    hide Step, FreshRun, PersistedAgain, Run, Closes;
    var id := CloseLeaves(c, y, t);
    var y1 := Step(c, y, t);
    if Settled(AdvanceClock(y, t.now), id) {
      forall run | FreshRun(c, y1, run)
        ensures !PersistedAgain(y1.st, Run(c, y1, run).st, id)
      {
        OutForGood(c, y1, run, id);
      }
    } else {
      var run := PersistsAgain(c, y1, id);
    }
  }

  lemma PersistsAgain(c: Config, y: System, id: TradeId) returns (run: seq<Timed>)
    requires Records(y) && y.st.position.None? && id != NIL_TRADE && !Settled(y, id)
    requires id in y.st.pending ==> y.clock < y.st.pending[id].expiresAt
    ensures FreshRun(c, y, run) && PersistedAgain(y.st, Run(c, y, run).st, id)
  {
    hide Step, FreshRun, Run, Records;
    var first := [At(y.clock, WriteStub(id, 0.0, y.clock))];
    if id in y.stubDue {
      StubCaches(c, y, id);
    } else {
      first := RecordCaches(c, y, id);
    }
    var y1 := Run(c, y, first);
    var e := At(y1.clock, Other(Unnamed(y1.st.position.value)));
    ClosesWhatIsCached(c, y1, id);
    run := first + [e];
    RunJoin(c, y, first, [e]);
    RunCons(c, y1, e, []);
    RunNothing(c, Step(c, y1, e));
    assert [e] + [] == [e];
    NoEnterFresh(c, y, run);
  }

  lemma RunNothing(c: Config, y: System)
    ensures Run(c, y, []) == y
  {
  }

  /** A reduce-only fill of an order the cached position does not name. */
  predicate Untracked(s: State, p: Position, u: OrderUpdate) {
    && u.filled && !u.marketSell && u.reduceOnly
    && u.clientId !in {NO_ORDER, p.tpOrderId, p.tp2OrderId, p.trailingOrderId, p.trailingSLOrderId, p.slOrderId}
    && s.forceCloseId != Some(u.clientId)
  }

  /** The order of stub write and close is needed, explicitly: where the cached
      trade's stub is still to be written, closing first persists it twice. */
  lemma CloseBeforeStubClosesTwice(c: Config, y: System, u: OrderUpdate, price: real, openedAt: int)
    requires Ledger(y) && y.st.position.Some?
    requires y.st.position.value.tradeId in y.stubDue && y.st.position.value.tradeId != NIL_TRADE
    requires Untracked(y.st, y.st.position.value, u)
    ensures var t, now := y.st.position.value.tradeId, y.clock;
            !DistinctTrades(Run(c, y, [At(now, Other(u)), At(now, WriteStub(t, price, openedAt)), At(now, Other(u))]).st.results)
  {
    var t, now, n := y.st.position.value.tradeId, y.clock, |y.st.results|;
    var e1, e2, e3 := At(now, Other(u)), At(now, WriteStub(t, price, openedAt)), At(now, Other(u));
    RunThree(c, y, e1, e2, e3);
    var results := Run(c, y, [e1, e2, e3]).st.results;
    assert results[n].pos.tradeId == t && results[n + 1].pos.tradeId == t;
  }

  /** So is the order of fill event and close, explicitly: where the cached trade's
      entry record is still there, closing first leaves the record, from which the
      fill event caches the trade anew. */
  lemma CloseBeforeFillClosesTwice(c: Config, y: System, u: OrderUpdate, v: OrderUpdate, price: real, qty: real)
    requires Ledger(y) && y.st.position.Some? && y.st.ex.NoMoreFailures()
    requires y.st.position.value.tradeId in y.st.pending && y.st.position.value.tradeId != NIL_TRADE
    requires y.clock < y.st.pending[y.st.position.value.tradeId].expiresAt && price != 0.0
    requires Untracked(y.st, y.st.position.value, u)
    requires v == u.(clientId := v.clientId) && v.clientId > y.st.ex.calls + 3 && y.st.forceCloseId != Some(v.clientId)
    ensures var t, now := y.st.position.value.tradeId, y.clock;
            !DistinctTrades(Run(c, y, [At(now, Other(u)), At(now, EntryFill(t, price, qty, now)), At(now, Other(v))]).st.results)
  {
    var t, now, n, k := y.st.position.value.tradeId, y.clock, |y.st.results|, y.st.ex.calls;
    var e1, e2, e3 := At(now, Other(u)), At(now, EntryFill(t, price, qty, now)), At(now, Other(v));
    RunThree(c, y, e1, e2, e3);
    assert k !in y.st.ex.failing && k + 1 !in y.st.ex.failing && k + 2 !in y.st.ex.failing;
    var y2 := Step(c, Step(c, y, e1), e2);
    assert y2.st.position.Some? && y2.st.position.value.tradeId == t;
    var results := Run(c, y, [e1, e2, e3]).st.results;
    assert results[n].pos.tradeId == t && results[n + 1].pos.tradeId == t;
  }

  // ---------------------------------------------------------------- both orders do occur

  /** A manual close of the symbol: an order id no handler knows. */
  function ManualFill(y: System, price: real): OrderUpdate {
    OrderUpdate(y.st.ex.calls + 9, true, false, price, 0.0, true)
  }

  /** The entry, and its fill event before the stub write ... */
  function FilledFirst(y: System, pe: PendingEntry, price: real): seq<Timed> {
    [At(y.clock, Enter(pe)), At(y.clock, EntryFill(pe.tradeId, price, pe.quantity, y.clock))]
  }

  /** ... or the stub write first. */
  function StubFirst(y: System, pe: PendingEntry, price: real): seq<Timed> {
    [At(y.clock, Enter(pe)), At(y.clock, WriteStub(pe.tradeId, price, y.clock))]
  }

  predicate Starts(y: System, pe: PendingEntry) {
    Idle(y) && y.st.ex.NoMoreFailures() && pe.tradeId != NIL_TRADE && pe.tradeId !in y.used && y.clock < pe.expiresAt
  }

  lemma FilledFirstReached(c: Config, y: System, pe: PendingEntry, price: real)
    requires Starts(y, pe) && price != 0.0
    ensures WellTimedRun(c, y, FilledFirst(y, pe, price))
    ensures var y2 := Run(c, y, FilledFirst(y, pe, price));
            && Ledger(y2) && y2.clock == y.clock
            && y2.st.position.Some? && y2.st.position.value.tradeId == pe.tradeId && pe.tradeId in y2.stubDue
            && Untracked(y2.st, y2.st.position.value, ManualFill(y, price))
  {
    var k, e1, e2 := y.st.ex.calls, FilledFirst(y, pe, price)[0], FilledFirst(y, pe, price)[1];
    assert k !in y.st.ex.failing && k + 1 !in y.st.ex.failing && k + 2 !in y.st.ex.failing && k + 3 !in y.st.ex.failing;
    StepKeepsLedger(c, y, e1);
    StepKeepsLedger(c, Step(c, y, e1), e2);
    RunTwo(c, y, e1, e2);
    assert FilledFirst(y, pe, price)[1..] == [e2];
  }

  lemma StubFirstReached(c: Config, y: System, pe: PendingEntry, price: real)
    requires Starts(y, pe)
    ensures WellTimedRun(c, y, StubFirst(y, pe, price))
    ensures var y2 := Run(c, y, StubFirst(y, pe, price));
            && Ledger(y2) && y2.clock == y.clock && y2.st.forceCloseId.None?
            && y2.st.position.Some? && y2.st.position.value.tradeId == pe.tradeId
            && y2.st.pending == map[pe.tradeId := pe]
            && y2.st.ex.NoMoreFailures() && y2.st.ex.calls == y.st.ex.calls + 1
            && Untracked(y2.st, y2.st.position.value, ManualFill(y, price))
  {
    var k, e1, e2 := y.st.ex.calls, StubFirst(y, pe, price)[0], StubFirst(y, pe, price)[1];
    assert k !in y.st.ex.failing;
    StepKeepsLedger(c, y, e1);
    StepKeepsLedger(c, Step(c, y, e1), e2);
    RunTwo(c, y, e1, e2);
    assert StubFirst(y, pe, price)[1..] == [e2];
  }

  /** From a fresh start with every executor call succeeding: two well-timed steps
      and a manual close that comes too early end in a trade persisted twice, in
      either order of fill event and stub write. */
  lemma TradesCanCloseTwice(c: Config, y: System, pe: PendingEntry, price: real)
    requires Starts(y, pe) && price != 0.0
    ensures exists rest :: !DistinctTrades(Run(c, y, FilledFirst(y, pe, price) + rest).st.results)
    ensures exists rest :: !DistinctTrades(Run(c, y, StubFirst(y, pe, price) + rest).st.results)
  {
    hide Run, Ledger, DistinctTrades, Untracked, WellTimedRun;
    var a, b, t, now := FilledFirst(y, pe, price), StubFirst(y, pe, price), pe.tradeId, y.clock;
    var u := ManualFill(y, price);
    FilledFirstReached(c, y, pe, price);
    var r1 := [At(now, Other(u)), At(now, WriteStub(t, price, now)), At(now, Other(u))];
    CloseBeforeStubClosesTwice(c, Run(c, y, a), u, price, now);
    RunJoin(c, y, a, r1);
    StubFirstReached(c, y, pe, price);
    var r2 := [At(now, Other(u)), At(now, EntryFill(t, price, pe.quantity, now)), At(now, Other(u))];
    CloseBeforeFillClosesTwice(c, Run(c, y, b), u, u, price, pe.quantity);
    RunJoin(c, y, b, r2);
  }
}
