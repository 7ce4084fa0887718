/** Runs of one symbol: the engine placing entries, the user-data stream, the 1s
    check and the protection sweep, each lock-holding handler as one step.  An
    order's fill at the exchange and the handling of its event are one step. */
module Lifecycle {
  import opened Options
  import opened PositionSpec

  const PENDING_TTL: int := 70 * SECOND

  datatype Event =
    | Enter(entry: PendingEntry)                           // engine: pending record, market order
    | WriteStub(trade: TradeId, price: real, openedAt: int) // engine: write-if-absent stub
    | EntryFill(trade: TradeId, price: real, qty: real, tradedAt: int) // the entry order's fill event
    | Expire(trade: TradeId)                               // a pending record is lost
    | Tick(market: Option<real>, decision: Decision)       // check
    | Fill(id: OrderId, price: real, qty: real)            // an open order fills, event handled
    | Other(update: OrderUpdate)                           // any other order event
    | SweepTick(live: LivePosition)                        // protection sweep

  datatype Timed = At(now: int, event: Event)

  /** stubDue: entries whose engine call has not written its stub yet. */
  datatype System = System(
    st: State,
    clock: int,
    stubDue: map<TradeId, PendingEntry>,
    used: set<TradeId>)

  function Stub(pe: PendingEntry, price: real, openedAt: int): Position {
    Position(pe.tradeId, price, pe.quantity, pe.quantity, 0.0, 0.0, NO_ORDER, NO_ORDER, NO_ORDER, 0.0,
             NO_ORDER, NO_ORDER, openedAt, false, false, 0.0, None, 0, 0.0, 0.0, false, 0.0, 0.0)
  }

  /** Redis drops a pending record at its expiry time. */
  function DropExpired(pending: map<TradeId, PendingEntry>, now: int): map<TradeId, PendingEntry> {
    map t | t in pending && now < pending[t].expiresAt :: pending[t]
  }

  function EnterStep(y: System, pe: PendingEntry): System {
    var (ex, ok) := y.st.ex.Market();
    var y := y.(used := y.used + {pe.tradeId});
    if ok then
      y.(st := y.st.(ex := ex, pending := y.st.pending[pe.tradeId := pe]),
      stubDue := y.stubDue[pe.tradeId := pe])
    else y.(st := y.st.(ex := ex, pending := y.st.pending - {pe.tradeId}))
  }

  function WriteStubStep(y: System, t: TradeId, price: real, openedAt: int): System {
    if t !in y.stubDue then y
    else y.(stubDue := y.stubDue - {t},
            st := if y.st.position.Some? then y.st
            else y.st.(position := Some(Stub(y.stubDue[t], price, openedAt))))
  }

  function FillUpdate(id: OrderId, price: real, qty: real): OrderUpdate {
    OrderUpdate(id, true, false, price, qty, true)
  }

  function EntryUpdate(t: TradeId, price: real, qty: real): OrderUpdate {
    OrderUpdate(t, true, true, price, qty, false)
  }

  function AfterFill(s: State, id: OrderId): State {
    s.(ex := s.ex.(open := s.ex.open - {id}))
  }

  function AdvanceClock(y: System, now: int): System {
    y.(clock := now, st := y.st.(pending := DropExpired(y.st.pending, now)))
  }

  function Apply(c: Config, y: System, e: Event): System {
    var s, now := y.st, y.clock;
    match e
    case Enter(pe) => EnterStep(y, pe)
    case WriteStub(t, price, openedAt) => WriteStubStep(y, t, price, openedAt)
    case EntryFill(t, price, qty, tradedAt) =>
      y.(st := HandleUpdate(c, s, EntryUpdate(t, price, qty), tradedAt))
    case Expire(t) => y.(st := s.(pending := s.pending - {t}))
    case Tick(market, decision) => y.(st := Check(c, s, market, now, decision))
    case Fill(id, price, qty) => y.(st := HandleUpdate(c, AfterFill(s, id), FillUpdate(id, price, qty), now))
    case Other(u) => y.(st := HandleUpdate(c, s, u, now))
    case SweepTick(live) => y.(st := Sweep(c, s, now, live))
  }

  function Step(c: Config, y: System, t: Timed): System {
    Apply(c, AdvanceClock(y, t.now), t.event)
  }

  function Run(c: Config, y: System, run: seq<Timed>): System
    decreases |run|
  {
    if run == [] then y else Run(c, Step(c, y, run[0]), run[1..])
  }

  lemma RunCons(c: Config, y: System, e: Timed, rest: seq<Timed>)
    ensures Run(c, y, [e] + rest) == Run(c, Step(c, y, e), rest)
  {
    assert ([e] + rest)[1..] == rest;
  }

  lemma {:induction false} RunJoin(c: Config, y: System, a: seq<Timed>, b: seq<Timed>)
    ensures Run(c, y, a + b) == Run(c, Run(c, y, a), b)
    decreases |a|
  {
    hide Step;
    if a == [] {
      assert a + b == b;
    } else {
      RunJoin(c, Step(c, y, a[0]), a[1..], b);
      assert (a + b)[1..] == a[1..] + b;
    }
  }

  lemma RunTwo(c: Config, y: System, e1: Timed, e2: Timed)
    ensures Run(c, y, [e1, e2]) == Step(c, Step(c, y, e1), e2)
  {
    hide Step;
    RunCons(c, y, e1, [e2]);
    RunCons(c, Step(c, y, e1), e2, []);
    assert [e1] + [e2] == [e1, e2] && [e2] + [] == [e2];
  }

  lemma RunThree(c: Config, y: System, e1: Timed, e2: Timed, e3: Timed)
    ensures Run(c, y, [e1, e2, e3]) == Step(c, Step(c, Step(c, y, e1), e2), e3)
  {
    hide Step;
    RunCons(c, y, e1, [e2, e3]);
    RunTwo(c, Step(c, y, e1), e2, e3);
    assert [e1] + [e2, e3] == [e1, e2, e3];
  }

  /** Start of the bot: nothing open, nothing cached, nothing persisted. */
  predicate Idle(y: System) {
    && y.st.ex.open == map[]
    && y.st.position.None?
    && y.st.pending == map[]
    && y.st.protection.None?
    && y.st.forceCloseId.None?
    && y.st.results == []
    && y.stubDue == map[]
  }
}
