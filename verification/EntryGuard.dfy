/** What has to hold for an entry order to be sent. */
module EntryGuard {
  import opened Options
  import opened ExecutionEngine

  /** Switch off, positions read and not above the limit, symbol free, losses not
      above theirs (an unread loss count does not matter). */
  predicate Clear(l: Limits, e: Engine, c: Candidate, k: Checks) {
    && k.killSwitch == Some(false)
    && k.positionsRead
    && |e.positions| <= l.maxPositions
    && c.symbol !in e.positions
    && (k.losses.None? || k.losses.value <= l.maxDailyLosses)
  }

  /** Sales carry their call's trade and candidate. */
  predicate SalesNamed(e: Engine) {
    && (forall s :: s in e.sent ==> s.trade in e.used)
    && (forall t :: t in e.calls && e.calls[t].phase.Recorded? ==>
                      e.calls[t].phase.sale.trade == t && e.calls[t].phase.sale.c == e.calls[t].c)
    && e.calls.Keys <= e.used
  }

  lemma StepNamed(l: Limits, e: Engine, op: Op)
    requires SalesNamed(e)
    ensures SalesNamed(Step(l, e, op)) && e.used <= Step(l, e, op).used
  {
    hide Margin, Quantity, GuardVerdict;
  }

  predicate SoldTrade(e: Engine, t: TradeId) {
    exists s :: s in e.sent && s.trade == t
  }

  predicate NoGuardFor(run: seq<Op>, t: TradeId) {
    forall op :: op in run ==> !(op.Guard? && op.trade == t)
  }

  lemma {:induction false} NeverSold(l: Limits, e: Engine, run: seq<Op>, t: TradeId)
    requires SalesNamed(e) && t !in e.calls && !SoldTrade(e, t) && NoGuardFor(run, t)
    ensures !SoldTrade(Run(l, e, run), t)
    decreases |run|
  {
    if run != [] {
      assert run[0] in run && NoGuardFor(run[1..], t);
      StepNamed(l, e, run[0]);
      NotSoldBy(l, e, run[0], t);
      hide Step, SalesNamed, SoldTrade;
      NeverSold(l, Step(l, e, run[0]), run[1..], t);
    }
  }

  lemma NotSoldBy(l: Limits, e: Engine, op: Op, t: TradeId)
    requires SalesNamed(e) && t !in e.calls && !SoldTrade(e, t) && !(op.Guard? && op.trade == t)
    ensures t !in Step(l, e, op).calls && !SoldTrade(Step(l, e, op), t)
  {
    hide Margin, Quantity, GuardVerdict;
  }

  /** A call gets past its guard, and can go on to send an order, exactly when
      everything is clear; otherwise it changes nothing. */
  lemma OrderCanFollowIff(l: Limits, e: Engine, t: TradeId, c: Candidate, k: Checks)
    requires SalesNamed(e) && t !in e.used
    ensures var e' := Step(l, e, Guard(t, c, k));
            && (Clear(l, e, c, k) ==> t in e'.calls && e'.calls[t].c == c)
            && (!Clear(l, e, c, k) ==> e' == e)
            && ((exists run :: NoGuardFor(run, t) && SoldTrade(Run(l, e', run), t)) <==> Clear(l, e, c, k))
  {
    var e' := Step(l, e, Guard(t, c, k));
    if Clear(l, e, c, k) {
      FundedSells(l, e', t, c);
      var run := Funded(t);
    } else {
      forall run | NoGuardFor(run, t)
        ensures !SoldTrade(Run(l, e', run), t)
      {
        NeverSold(l, e, run, t);
      }
    }
  }

  function Funded(t: TradeId): seq<Op> {
    [Record(t, Some(Balance(100.0, MAX_MARGIN))), Order(t, true)]
  }

  lemma FundedSells(l: Limits, e: Engine, t: TradeId, c: Candidate)
    requires t in e.calls && e.calls[t] == Attempt(c, Checked)
    ensures NoGuardFor(Funded(t), t) && SoldTrade(Run(l, e, Funded(t)), t)
  {
    hide Quantity;
    var ops := Funded(t);
    var e1 := Step(l, e, ops[0]);
    var e2 := Step(l, e1, ops[1]);
    assert ops[1..] == [ops[1]] && [ops[1]][1..] == [];
    assert Run(l, e, ops) == e2 by {
      assert Run(l, e2, []) == e2;
      assert Run(l, e1, [ops[1]]) == e2;
    }
    assert e2.sent[|e2.sent| - 1] in e2.sent && e2.sent[|e2.sent| - 1].trade == t;
  }

  /** A guard step of the run for this trade and candidate, with the switch off. */
  predicate GuardedIn(run: seq<Op>, t: TradeId, c: Candidate) {
    exists op :: op in run && op.Guard? && op.trade == t && op.c == c
                 && op.checks.killSwitch == Some(false) && op.checks.positionsRead
  }

  /** Where an order or a call under way comes from. */
  predicate Accounted(e: Engine, run: seq<Op>, t: TradeId, c: Candidate) {
    (t in e.calls && e.calls[t].c == c) || GuardedIn(run, t, c)
  }

  /** Over every run, each order sent belongs to a call of the run whose guard read
      the kill switch as off, or to one under way at its start. */
  lemma {:induction false} OrdersAreGuarded(l: Limits, e: Engine, run: seq<Op>)
    requires SalesNamed(e)
    ensures forall s :: s in Run(l, e, run).sent ==> s in e.sent || Accounted(e, run, s.trade, s.c)
    ensures forall t :: t in Run(l, e, run).calls ==> Accounted(e, run, t, Run(l, e, run).calls[t].c)
    decreases |run|
  {
    if run != [] {
      var e1, end := Step(l, e, run[0]), Run(l, e, run);
      StepNamed(l, e, run[0]);
      OrdersAreGuarded(l, e1, run[1..]);
      StepAccounts(l, e, run[0]);
      assert end == Run(l, e1, run[1..]);
      hide Step, SalesNamed;
      forall s | s in end.sent && s !in e.sent
        ensures Accounted(e, run, s.trade, s.c)
      {
        FromLater(e, e1, run, s.trade, s.c);
      }
      forall t | t in end.calls
        ensures Accounted(e, run, t, end.calls[t].c)
      {
        FromLater(e, e1, run, t, end.calls[t].c);
      }
    }
  }

  lemma FromLater(e: Engine, e1: Engine, run: seq<Op>, t: TradeId, c: Candidate)
    requires run != [] && (Accounted(e1, run[1..], t, c) || Accounted(e, [run[0]], t, c))
    requires forall u :: u in e1.calls ==> Accounted(e, [run[0]], u, e1.calls[u].c)
    ensures Accounted(e, run, t, c)
  {
    assert forall op :: op in run[1..] || op in [run[0]] ==> op in run;
  }

  lemma StepAccounts(l: Limits, e: Engine, op: Op)
    requires SalesNamed(e)
    ensures forall s :: s in Step(l, e, op).sent ==> s in e.sent || Accounted(e, [op], s.trade, s.c)
    ensures forall t :: t in Step(l, e, op).calls ==> Accounted(e, [op], t, Step(l, e, op).calls[t].c)
  {
    hide Margin, Quantity;
    assert op in [op];
  }

  // ---------------------------------------------------------------- what is recorded

  /** An order of this trade was sent for this symbol and quantity. */
  predicate SoldAs(e: Engine, t: TradeId, s: Symbol, qty: real) {
    exists x :: x in e.sent && x.trade == t && x.c.symbol == s && x.quantity == qty
  }

  /** The calls that have stored a record carry what they will order. */
  predicate CallsBooked(l: Limits, e: Engine) {
    forall t :: t in e.calls && (e.calls[t].phase.Recorded? || e.calls[t].phase.Ordered?) ==>
                  var a := e.calls[t];
                  && a.phase.sale.trade == t && a.phase.sale.c == a.c
                  && (a.phase.Ordered? ==> a.phase.sale in e.sent)
                  && (t in e.pending ==> e.pending[t] == PendingEntry(a.c.symbol, a.phase.sale.quantity, l.tpPct))
  }

  /** Records and stubs carry what their orders ask for. */
  predicate Booked(l: Limits, e: Engine) {
    && Consistent(e)
    && CallsBooked(l, e)
    && (forall t :: t in e.pending && t !in e.calls ==>
                      SoldAs(e, t, e.pending[t].symbol, e.pending[t].quantity) && e.pending[t].tpPct == l.tpPct)
    && (forall s :: s in e.positions && e.positions[s].Stub? ==> SoldAs(e, e.positions[s].trade, s, e.positions[s].quantity))
  }

  lemma SalesStay(l: Limits, e: Engine, op: Op, t: TradeId, s: Symbol, qty: real)
    requires SoldAs(e, t, s, qty)
    ensures SoldAs(Step(l, e, op), t, s, qty)
  {
    hide Margin, Quantity, GuardVerdict;
    var x :| x in e.sent && x.trade == t && x.c.symbol == s && x.quantity == qty;
    assert x in Step(l, e, op).sent;
  }

  lemma StepCallsBooked(l: Limits, e: Engine, op: Op)
    requires Consistent(e) && CallsBooked(l, e)
    ensures CallsBooked(l, Step(l, e, op))
  {
    hide Margin, Quantity, GuardVerdict, SizedOn;
  }

  lemma StepBooked(l: Limits, e: Engine, op: Op)
    requires Booked(l, e)
    ensures Booked(l, Step(l, e, op))
  {
    hide Margin, Quantity, GuardVerdict, SoldAs, SizedOn;
    var e' := Step(l, e, op);
    StepConsistent(l, e, op);
    StepCallsBooked(l, e, op);
    forall t, s, qty | SoldAs(e, t, s, qty)
      ensures SoldAs(e', t, s, qty)
    {
      SalesStay(l, e, op, t, s, qty);
    }
    if op.WriteStub? && op.trade in e.calls && e.calls[op.trade].phase.Ordered? {
      SaleIs(e', e.calls[op.trade].phase.sale);
    }
  }

  lemma SaleIs(e: Engine, x: Sale)
    requires x in e.sent
    ensures SoldAs(e, x.trade, x.c.symbol, x.quantity)
  {
  }

  /** Over every run, a record whose order went out and a cached stub are for the
      symbol and quantity ordered, the record at the configured take-profit. */
  lemma {:induction false} RecordsMatchOrders(l: Limits, e: Engine, run: seq<Op>)
    requires Booked(l, e)
    ensures Booked(l, Run(l, e, run))
    decreases |run|
  {
    hide Step, Booked;
    if run != [] {
      StepBooked(l, e, run[0]);
      RecordsMatchOrders(l, Step(l, e, run[0]), run[1..]);
    }
  }
}
