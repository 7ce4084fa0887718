/** internal/execution/engine.go: the checks, the sizing and the cache writes of an
    entry.  `execute` takes no lock, so its calls overlap with each other and with
    the fill handler.  Each access to the cached positions, to the pending records
    and to the exchange's order book is a step of its own; what a call reads besides
    (kill switch, loss count, balance, price) is an argument of the next step. */
module ExecutionEngine {
  import opened Options

  type Symbol = string
  type TradeId = nat

  const MAX_MARGIN: real := 500.0

  datatype Limits = Limits(maxPositions: nat, maxDailyLosses: int, leverage: real, tpPct: real)
  datatype Balance = Balance(total: real, available: real)
  datatype Quote = Quote(symbol: Symbol, markPrice: real, sizePct: real)
  type Candidate = c: Quote | c.markPrice > 0.0 witness Quote("", 1.0, 0.0)
  datatype PendingEntry = PendingEntry(symbol: Symbol, quantity: real, tpPct: real)

  /** A cached position: the engine's estimate, or what the fill handler wrote. */
  datatype Holding = Stub(trade: TradeId, quantity: real, price: real) | Finalised(trade: TradeId)

  /** A market order, with the balance it was sized on. */
  datatype Sale = Sale(trade: TradeId, c: Candidate, quantity: real, balance: Balance)

  /** How far a call is: guard passed, record written, order accepted or refused. */
  datatype Phase = Checked | Recorded(sale: Sale) | Ordered(sale: Sale) | Rejected
  datatype Attempt = Attempt(c: Candidate, phase: Phase)

  datatype Engine = Engine(
    positions: map<Symbol, Holding>,
    pending: map<TradeId, PendingEntry>,
    calls: map<TradeId, Attempt>,
    sent: seq<Sale>,
    used: set<TradeId>)

  /** None is a read error. */
  datatype Checks = Checks(killSwitch: Option<bool>, positionsRead: bool, losses: Option<int>)

  datatype Op =
    | Guard(trade: TradeId, c: Candidate, checks: Checks) // reads the cached positions
    | Record(trade: TradeId, balance: Option<Balance>)    // sizes, writes the pending record
    | Order(trade: TradeId, accepted: bool)               // sends the market order
    | DropRecord(trade: TradeId)                          // after a refused order
    | WriteStub(trade: TradeId, price: real)              // after an accepted one, write-if-absent
    | FillHandled(trade: TradeId)                         // finalizeSLTP placed its orders
    | Expire(trade: TradeId)                              // a pending record is lost
    | Close(symbol: Symbol)                               // a position leaves the cache

  function Min(a: real, b: real): real { if a <= b then a else b }

  function Margin(b: Balance, sizePct: real): real {
    Min(b.total * sizePct / 100.0, MAX_MARGIN)
  }

  function Quantity(l: Limits, margin: real, markPrice: real): real
    requires markPrice > 0.0
  {
    margin * l.leverage / markPrice
  }

  datatype Verdict = Admitted | Refused | Skipped

  function GuardVerdict(l: Limits, e: Engine, c: Candidate, k: Checks): Verdict {
    if k.killSwitch != Some(false) || !k.positionsRead then Refused
    else if |e.positions| > l.maxPositions || c.symbol in e.positions then Skipped
    else if k.losses.Some? && k.losses.value > l.maxDailyLosses then Skipped
    else Admitted
  }

  /** Trade ids are newly minted: a known one is passed over. */
  predicate Admits(l: Limits, e: Engine, op: Op) {
    op.Guard? && op.trade !in e.used && GuardVerdict(l, e, op.c, op.checks) == Admitted
  }

  function RecordStep(l: Limits, e: Engine, t: TradeId, balance: Option<Balance>): Engine
    requires t in e.calls
  {
    var c := e.calls[t].c;
    if balance.None? || balance.value.available < Margin(balance.value, c.sizePct) then e.(calls := e.calls - {t})
    else
      var qty := Quantity(l, Margin(balance.value, c.sizePct), c.markPrice);
      e.(calls := e.calls[t := Attempt(c, Recorded(Sale(t, c, qty, balance.value)))],
      pending := e.pending[t := PendingEntry(c.symbol, qty, l.tpPct)])
  }

  function OrderStep(e: Engine, t: TradeId, accepted: bool): Engine
    requires t in e.calls && e.calls[t].phase.Recorded?
  {
    var a := e.calls[t];
    if accepted then e.(calls := e.calls[t := Attempt(a.c, Ordered(a.phase.sale))], sent := e.sent + [a.phase.sale])
    else e.(calls := e.calls[t := Attempt(a.c, Rejected)])
  }

  function WriteStubStep(e: Engine, t: TradeId, price: real): Engine
    requires t in e.calls && e.calls[t].phase.Ordered?
  {
    var a := e.calls[t];
    e.(calls := e.calls - {t},
    positions := if a.c.symbol in e.positions then e.positions
    else e.positions[a.c.symbol := Stub(t, a.phase.sale.quantity, price)])
  }

  /** An entry whose order went out, if its call is still under way. */
  predicate OrderOut(e: Engine, t: TradeId) {
    t in e.calls ==> e.calls[t].phase.Ordered?
  }

  /** A step that cannot occur (no such call, no such record) changes nothing. */
  function Step(l: Limits, e: Engine, op: Op): Engine {
    match op
    case Guard(t, c, _) =>
      if Admits(l, e, op) then e.(calls := e.calls[t := Attempt(c, Checked)], used := e.used + {t}) else e
    case Record(t, balance) =>
      if t in e.calls && e.calls[t].phase.Checked? then RecordStep(l, e, t, balance) else e
    case Order(t, accepted) =>
      if t in e.calls && e.calls[t].phase.Recorded? then OrderStep(e, t, accepted) else e
    case DropRecord(t) =>
      if t in e.calls && e.calls[t].phase.Rejected? then e.(calls := e.calls - {t}, pending := e.pending - {t}) else e
    case WriteStub(t, price) =>
      if t in e.calls && e.calls[t].phase.Ordered? then WriteStubStep(e, t, price) else e
    case FillHandled(t) =>
      if t in e.pending && OrderOut(e, t)
      then e.(positions := e.positions[e.pending[t].symbol := Finalised(t)], pending := e.pending - {t})
      else e
    case Expire(t) => e.(pending := e.pending - {t})
    case Close(s) => e.(positions := e.positions - {s})
  }

  function Run(l: Limits, e: Engine, run: seq<Op>): Engine
    decreases |run|
  {
    if run == [] then e else Run(l, Step(l, e, run[0]), run[1..])
  }

  lemma {:induction false} RunJoin(l: Limits, e: Engine, a: seq<Op>, b: seq<Op>)
    ensures Run(l, e, a + b) == Run(l, Run(l, e, a), b)
    decreases |a|
  {
    hide Step;
    if a == [] {
      assert a + b == b;
    } else {
      RunJoin(l, Step(l, e, a[0]), a[1..], b);
      assert (a + b)[1..] == a[1..] + b;
    }
  }

  // ---------------------------------------------------------------- records

  /** Every trade known anywhere was minted, under one symbol, its order's. */
  predicate Consistent(e: Engine) {
    && e.calls.Keys <= e.used && e.pending.Keys <= e.used
    && (forall t :: t in e.calls && t in e.pending ==> e.pending[t].symbol == e.calls[t].c.symbol)
    && (forall t :: t in e.calls && e.calls[t].phase.Checked? ==> t !in e.pending)
  }

  lemma StepConsistent(l: Limits, e: Engine, op: Op)
    requires Consistent(e)
    ensures Consistent(Step(l, e, op))
  {
    hide Margin, Quantity, GuardVerdict;
  }

  /** From its accepted order on an entry's record is there until its fill is
      handled or it expires, whatever else goes on. */
  lemma {:induction false} RecordAwaitsFillIff(l: Limits, e: Engine, run: seq<Op>, t: TradeId)
    requires Consistent(e) && t in e.pending && OrderOut(e, t)
    ensures t in Run(l, e, run).pending <==> FillHandled(t) !in run && Expire(t) !in run
    ensures t in Run(l, e, run).pending ==> Run(l, e, run).pending[t] == e.pending[t]
    decreases |run|
  {
    hide Consistent;
    if run != [] {
      var e1 := Step(l, e, run[0]);
      StepConsistent(l, e, run[0]);
      assert forall op :: op in run <==> op == run[0] || op in run[1..];
      RecordAtStep(l, e, run[0], t);
      if t in e1.pending {
        RecordAwaitsFillIff(l, e1, run[1..], t);
      } else {
        RecordGone(l, e1, run[1..], t);
      }
    }
  }

  lemma RecordAtStep(l: Limits, e: Engine, op: Op, t: TradeId)
    requires Consistent(e) && t in e.pending && OrderOut(e, t)
    ensures var e1 := Step(l, e, op);
            && (t in e1.pending <==> op != FillHandled(t) && op != Expire(t))
            && (t in e1.pending ==> e1.pending[t] == e.pending[t] && OrderOut(e1, t))
            && (t !in e1.pending ==> NotAwaiting(e1, t))
  {
    hide Margin, Quantity, GuardVerdict;
  }

  /** A minted trade without a record, past its order. */
  predicate NotAwaiting(e: Engine, t: TradeId) {
    t in e.used && t !in e.pending && OrderOut(e, t)
  }

  lemma {:induction false} RecordGone(l: Limits, e: Engine, run: seq<Op>, t: TradeId)
    requires NotAwaiting(e, t)
    ensures NotAwaiting(Run(l, e, run), t)
    decreases |run|
  {
    hide Margin, Quantity, GuardVerdict;
    if run != [] {
      RecordGone(l, Step(l, e, run[0]), run[1..], t);
    }
  }

  // ---------------------------------------------------------------- the stub and the fill handler

  /** Nothing in the run closes symbol s or confirms another trade's entry there. */
  predicate OnlyTradeOf(l: Limits, e: Engine, run: seq<Op>, s: Symbol, t: TradeId)
    decreases |run|
  {
    run != [] ==>
      && run[0] != Close(s)
      && (run[0].FillHandled? && run[0].trade != t && run[0].trade in e.pending ==> e.pending[run[0].trade].symbol != s)
      && OnlyTradeOf(l, Step(l, e, run[0]), run[1..], s, t)
  }

  predicate Holds(e: Engine, s: Symbol, t: TradeId) {
    s in e.positions && e.positions[s] == Finalised(t)
  }

  /** What the fill handler cached stays: no stub write replaces it. */
  lemma {:induction false} FinalisedStays(l: Limits, e: Engine, run: seq<Op>, s: Symbol, t: TradeId)
    requires Holds(e, s, t) && OnlyTradeOf(l, e, run, s, t)
    requires t in e.pending ==> e.pending[t].symbol == s
    requires Consistent(e) && t in e.used && (t in e.calls ==> e.calls[t].c.symbol == s)
    ensures Holds(Run(l, e, run), s, t)
    decreases |run|
  {
    hide Margin, Quantity, GuardVerdict;
    if run != [] {
      StepConsistent(l, e, run[0]);
      FinalisedStays(l, Step(l, e, run[0]), run[1..], s, t);
    }
  }

  /** Once an order was sent, its fill handled before, between or after the stub
      write and any steps of other calls ends in the handler's position. */
  lemma {:induction false} FillWinsRace(l: Limits, e: Engine, run: seq<Op>, t: TradeId)
    requires Consistent(e) && t in e.pending && OrderOut(e, t) && FillHandled(t) in run && Expire(t) !in run
    requires OnlyTradeOf(l, e, run, e.pending[t].symbol, t)
    ensures Holds(Run(l, e, run), e.pending[t].symbol, t)
    decreases |run|
  {
    hide Consistent;
    var e1, s := Step(l, e, run[0]), e.pending[t].symbol;
    StepConsistent(l, e, run[0]);
    RecordAtStep(l, e, run[0], t);
    if run[0] == FillHandled(t) {
      SymbolKept(e, t);
      FinalisedStays(l, e1, run[1..], s, t);
    } else {
      assert FillHandled(t) in run[1..] && Expire(t) !in run[1..];
      FillWinsRace(l, e1, run[1..], t);
    }
  }

  lemma SymbolKept(e: Engine, t: TradeId)
    requires Consistent(e) && t in e.pending
    ensures t in e.used && (t in e.calls ==> e.calls[t].c.symbol == e.pending[t].symbol)
  {
  }

  // ---------------------------------------------------------------- sizing

  predicate SizedOn(l: Limits, s: Sale) {
    var share := s.balance.total * s.c.sizePct / 100.0;
    var margin := if share <= 500.0 then share else 500.0;
    s.quantity * s.c.markPrice == margin * l.leverage && margin <= s.balance.available
  }

  lemma SaleSized(l: Limits, t: TradeId, c: Candidate, b: Balance)
    requires Margin(b, c.sizePct) <= b.available
    ensures SizedOn(l, Sale(t, c, Quantity(l, Margin(b, c.sizePct), c.markPrice), b))
  {
    var notional := Margin(b, c.sizePct) * l.leverage;
    assert notional / c.markPrice * c.markPrice == notional;
  }

  /** The orders sent, and those recorded and about to be. */
  predicate AllSized(l: Limits, e: Engine) {
    && (forall s :: s in e.sent ==> SizedOn(l, s))
    && (forall t :: t in e.calls && e.calls[t].phase.Recorded? ==> SizedOn(l, e.calls[t].phase.sale))
  }

  lemma StepSized(l: Limits, e: Engine, op: Op)
    requires AllSized(l, e)
    ensures AllSized(l, Step(l, e, op))
  {
    hide Margin, Quantity, SizedOn, GuardVerdict;
    if op.Record? && op.trade in e.calls && op.balance.Some? {
      var c, b := e.calls[op.trade].c, op.balance.value;
      if Margin(b, c.sizePct) <= b.available {
        SaleSized(l, op.trade, c, b);
      }
    }
  }

  /** Over every run each order's notional is its margin times the leverage, the
      margin the sizing share of the balance, at most 500, and available. */
  lemma {:induction false} OrdersSized(l: Limits, e: Engine, run: seq<Op>)
    requires AllSized(l, e)
    ensures AllSized(l, Run(l, e, run))
    decreases |run|
  {
    hide Step, AllSized;
    if run != [] {
      StepSized(l, e, run[0]);
      OrdersSized(l, Step(l, e, run[0]), run[1..]);
    }
  }

  // ---------------------------------------------------------------- the engine object

  /** A step of trade t's own call. */
  predicate OwnStep(op: Op, t: TradeId) {
    (op.Guard? || op.Record? || op.Order? || op.DropRecord? || op.WriteStub?) && op.trade == t
  }

  predicate FromOthers(run: seq<Op>, t: TradeId) {
    forall op :: op in run ==> !OwnStep(op, t)
  }

  /** What a call has learnt about its own trade is in its local variables. */
  lemma {:induction false} OthersKeepCall(l: Limits, e: Engine, run: seq<Op>, t: TradeId)
    requires FromOthers(run, t)
    ensures t in Run(l, e, run).calls <==> t in e.calls
    ensures t in e.calls ==> Run(l, e, run).calls[t] == e.calls[t]
    decreases |run|
  {
    hide Margin, Quantity, GuardVerdict;
    if run != [] {
      assert run[0] in run && FromOthers(run[1..], t);
      OthersKeepCall(l, Step(l, e, run[0]), run[1..], t);
    }
  }

  datatype Outcome = Failed | Passed | Entered

  class EntryEngine {
    const limits: Limits
    var positions: map<Symbol, Holding>
    var pending: map<TradeId, PendingEntry>
    var calls: map<TradeId, Attempt>
    var sent: seq<Sale>
    var used: set<TradeId>

    ghost function Abs(): Engine
      reads this
    {
      Engine(positions, pending, calls, sent, used)
    }

    constructor (limits: Limits, e: Engine)
      ensures this.limits == limits && Abs() == e
    {
      this.limits, positions, pending, calls, sent, used := limits, e.positions, e.pending, e.calls, e.sent, e.used;
    }

    method CheckGuard(t: TradeId, c: Candidate, k: Checks) returns (v: Verdict)
      requires t !in used
      modifies this
      ensures v == GuardVerdict(limits, old(Abs()), c, k)
      ensures Abs() == Step(limits, old(Abs()), Guard(t, c, k))
      ensures v == Admitted ==> t in calls && calls[t] == Attempt(c, Checked)
    {
      if k.killSwitch.None? || k.killSwitch.value || !k.positionsRead {
        return Refused;
      }
      if |positions| > limits.maxPositions || c.symbol in positions {
        return Skipped;
      }
      if k.losses.Some? && k.losses.value > limits.maxDailyLosses {
        return Skipped;
      }
      calls, used := calls[t := Attempt(c, Checked)], used + {t};
      return Admitted;
    }

    method RecordEntry(t: TradeId, c: Candidate, balance: Option<Balance>) returns (sale: Option<Sale>)
      requires t in calls && calls[t] == Attempt(c, Checked)
      modifies this
      ensures Abs() == RecordStep(limits, old(Abs()), t, balance)
      ensures sale.Some? ==> t in calls && calls[t] == Attempt(c, Recorded(sale.value))
                             && sale.value.trade == t && sale.value.c == c
    {
      if balance.None? {
        calls := calls - {t};
        return None;
      }
      var margin := Margin(balance.value, c.sizePct);
      if balance.value.available < margin {
        calls := calls - {t};
        return None;
      }
      var qty := Quantity(limits, margin, c.markPrice);
      sale := Some(Sale(t, c, qty, balance.value));
      pending := pending[t := PendingEntry(c.symbol, qty, limits.tpPct)];
      calls := calls[t := Attempt(c, Recorded(sale.value))];
    }

    method PlaceOrder(t: TradeId, c: Candidate, sale: Sale, accepted: bool)
      requires t in calls && calls[t] == Attempt(c, Recorded(sale))
      modifies this
      ensures Abs() == OrderStep(old(Abs()), t, accepted)
      ensures t in calls && calls[t] == Attempt(c, if accepted then Ordered(sale) else Rejected)
      ensures accepted ==> sent == old(sent) + [sale]
    {
      if accepted {
        sent := sent + [sale];
        calls := calls[t := Attempt(c, Ordered(sale))];
      } else {
        calls := calls[t := Attempt(c, Rejected)];
      }
    }

    method DropPending(t: TradeId)
      requires t in calls && calls[t].phase.Rejected?
      modifies this
      ensures Abs() == Step(limits, old(Abs()), DropRecord(t))
    {
      calls, pending := calls - {t}, pending - {t};
    }

    method WriteIfAbsent(t: TradeId, c: Candidate, sale: Sale, price: real)
      requires t in calls && calls[t] == Attempt(c, Ordered(sale))
      modifies this
      ensures Abs() == WriteStubStep(old(Abs()), t, price)
    {
      if c.symbol !in positions {
        positions := positions[c.symbol := Stub(t, sale.quantity, price)];
      }
      calls := calls - {t};
    }

    /** What other goroutines do between two accesses of a call. */
    method Perform(op: Op)
      modifies this
      ensures Abs() == Step(limits, old(Abs()), op)
    {
      match op {
        case Guard(t, c, k) =>
          if t !in used {
            var _ := CheckGuard(t, c, k);
          }
        case Record(t, balance) =>
          if t in calls && calls[t].phase.Checked? {
            var _ := RecordEntry(t, calls[t].c, balance);
          }
        case Order(t, accepted) =>
          if t in calls && calls[t].phase.Recorded? {
            PlaceOrder(t, calls[t].c, calls[t].phase.sale, accepted);
          }
        case DropRecord(t) =>
          if t in calls && calls[t].phase.Rejected? {
            DropPending(t);
          }
        case WriteStub(t, price) =>
          if t in calls && calls[t].phase.Ordered? {
            WriteIfAbsent(t, calls[t].c, calls[t].phase.sale, price);
          }
        case FillHandled(t) =>
          if t in pending && (t !in calls || calls[t].phase.Ordered?) {
            positions, pending := positions[pending[t].symbol := Finalised(t)], pending - {t};
          }
        case Expire(t) => pending := pending - {t};
        case Close(s) => positions := positions - {s};
      }
    }

    method Interleave(ops: seq<Op>)
      modifies this
      ensures Abs() == Run(limits, old(Abs()), ops)
    {
      ghost var done: seq<Op> := [];
      for i := 0 to |ops|
        invariant done == ops[..i] && Abs() == Run(limits, old(Abs()), done)
      {
        ghost var before := Abs();
        Perform(ops[i]);
        RunJoin(limits, old(Abs()), done, [ops[i]]);
        assert Run(limits, before, [ops[i]]) == Run(limits, Abs(), []);
        done := done + [ops[i]];
        assert ops[..i + 1] == ops[..i] + [ops[i]];
      }
      assert ops[..|ops|] == ops;
    }

    /** The object is where the run leads from `before`. */
    ghost predicate After(before: Engine, run: seq<Op>)
      reads this
    {
      Abs() == Run(limits, before, run)
    }

    /** One call of execute, with what others do between its accesses: a run of its
        own steps and theirs, in that order. */
    method Execute(c: Candidate, t: TradeId, k: Checks, first: seq<Op>, balance: Option<Balance>, second: seq<Op>,
                   accepted: bool, third: seq<Op>, price: real) returns (r: Outcome, ghost run: seq<Op>)
      requires t !in used && FromOthers(first, t) && FromOthers(second, t) && FromOthers(third, t)
      modifies this
      ensures After(old(Abs()), run)
      ensures var recorded := [Guard(t, c, k)] + first + [Record(t, balance)];
              var ordered := recorded + second + [Order(t, accepted)] + third;
              match r
              case Entered => accepted && run == ordered + [WriteStub(t, price)] && Sold(Abs(), t, c)
              case _ => run == [Guard(t, c, k)] || run == recorded || (!accepted && run == ordered + [DropRecord(t)])
      ensures r == Passed <==> k.killSwitch == Some(false) && k.positionsRead
                               && (|old(positions)| > limits.maxPositions || c.symbol in old(positions)
                                   || (k.losses.Some? && k.losses.value > limits.maxDailyLosses))
      ensures k.killSwitch != Some(false) || !k.positionsRead ==> r == Failed
      ensures r == Entered || run != [Guard(t, c, k)] ==>
                && k.killSwitch == Some(false) && k.positionsRead && |old(positions)| <= limits.maxPositions
                && c.symbol !in old(positions) && (k.losses.None? || k.losses.value <= limits.maxDailyLosses)
    {
      hide Run, Step, RecordStep, OrderStep, WriteStubStep, Sold;
      ghost var start := Abs();
      run := [Guard(t, c, k)];
      var v := CheckGuard(t, c, k);
      RunOne(limits, start, Guard(t, c, k));
      if v != Admitted {
        return if v == Skipped then Passed else Failed, run;
      }
      run := LetOthers(start, run, first, t);
      ghost var e := Abs();
      var sale := RecordEntry(t, c, balance);
      RecordStepIs(limits, e, t, balance);
      Extended(limits, start, run, Record(t, balance));
      run := run + [Record(t, balance)];
      if sale.None? {
        return Failed, run;
      }
      run := LetOthers(start, run, second, t);
      e := Abs();
      PlaceOrder(t, c, sale.value, accepted);
      OrderStepIs(limits, e, t, accepted);
      Extended(limits, start, run, Order(t, accepted));
      run := run + [Order(t, accepted)];
      ghost var sold := Abs();
      run := LetOthers(start, run, third, t);
      e := Abs();
      if !accepted {
        DropPending(t);
        Extended(limits, start, run, DropRecord(t));
        return Failed, run + [DropRecord(t)];
      }
      WriteIfAbsent(t, c, sale.value, price);
      StubStepIs(limits, e, t, price);
      Extended(limits, start, run, WriteStub(t, price));
      SoldNow(sold, sale.value);
      SoldStays(limits, sold, third, t, c);
      SoldStays(limits, e, [WriteStub(t, price)], t, c);
      RunOne(limits, e, WriteStub(t, price));
      return Entered, run + [WriteStub(t, price)];
    }

    /** Others act; this call's own progress is untouched. */
    method LetOthers(ghost start: Engine, ghost run: seq<Op>, others: seq<Op>, t: TradeId) returns (ghost run': seq<Op>)
      requires FromOthers(others, t) && After(start, run) && t in calls
      modifies this
      ensures run' == run + others && After(start, run') && Abs() == Run(limits, old(Abs()), others)
      ensures t in calls && calls[t] == old(calls)[t]
    {
      hide Run;
      ghost var e := Abs();
      Interleave(others);
      OthersKeepCall(limits, e, others, t);
      RunJoin(limits, start, run, others);
      run' := run + others;
    }
  }

  lemma Extended(l: Limits, start: Engine, run: seq<Op>, op: Op)
    ensures Run(l, start, run + [op]) == Step(l, Run(l, start, run), op)
  {
    hide Step, Run;
    RunJoin(l, start, run, [op]);
    RunOne(l, Run(l, start, run), op);
  }

  lemma RunOne(l: Limits, e: Engine, op: Op)
    ensures Run(l, e, [op]) == Step(l, e, op)
  {
    assert Run(l, Step(l, e, op), []) == Step(l, e, op);
  }

  lemma RecordStepIs(l: Limits, e: Engine, t: TradeId, balance: Option<Balance>)
    requires t in e.calls && e.calls[t].phase.Checked?
    ensures Step(l, e, Record(t, balance)) == RecordStep(l, e, t, balance)
  {
  }

  lemma OrderStepIs(l: Limits, e: Engine, t: TradeId, accepted: bool)
    requires t in e.calls && e.calls[t].phase.Recorded?
    ensures Step(l, e, Order(t, accepted)) == OrderStep(e, t, accepted)
  {
  }

  lemma StubStepIs(l: Limits, e: Engine, t: TradeId, price: real)
    requires t in e.calls && e.calls[t].phase.Ordered?
    ensures Step(l, e, WriteStub(t, price)) == WriteStubStep(e, t, price)
  {
  }

  predicate Sold(e: Engine, t: TradeId, c: Candidate) {
    exists s :: s in e.sent && s.trade == t && s.c == c
  }

  lemma SoldNow(e: Engine, sale: Sale)
    requires e.sent != [] && e.sent[|e.sent| - 1] == sale
    ensures Sold(e, sale.trade, sale.c)
  {
    assert sale in e.sent;
  }

  lemma {:induction false} SoldStays(l: Limits, e: Engine, run: seq<Op>, t: TradeId, c: Candidate)
    requires Sold(e, t, c)
    ensures Sold(Run(l, e, run), t, c)
    decreases |run|
  {
    hide Margin, Quantity, GuardVerdict;
    if run != [] {
      var s :| s in e.sent && s.trade == t && s.c == c;
      assert s in Step(l, e, run[0]).sent;
      SoldStays(l, Step(l, e, run[0]), run[1..], t, c);
    }
  }
}
