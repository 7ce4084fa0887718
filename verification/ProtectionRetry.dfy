/** A pending-protection record lives for at most five placement rounds. */
module ProtectionRetry {
  import opened Options
  import opened PositionSpec
  import opened Lifecycle
  import O = OpenOrders

  /** What retryProtection did at the executor. */
  datatype Tally = Tally(rounds: nat, stops: nat, takeProfits: nat, emergencies: nat) {
    function Plus(t: Tally): Tally {
      Tally(rounds + t.rounds, stops + t.stops, takeProfits + t.takeProfits, emergencies + t.emergencies)
    }
  }

  const NOTHING: Tally := Tally(0, 0, 0, 0)

  function Once(b: bool): nat { if b then 1 else 0 }

  /** A record that still asks for an order. */
  predicate Asks(s: State) {
    s.protection.Some? && (s.protection.value.needsSL || s.protection.value.needsTP)
  }

  // ---------------------------------------------------------------- one call

  /** check's call of retryProtection. */
  function Call(c: Config, s: State, now: int): State
    requires s.position.Some? && s.protection.Some?
  {
    RetryProtection(c, s, s.position.value, s.protection.value, now)
  }

  function CallTally(c: Config, s: State, now: int): Tally
    requires s.position.Some? && s.protection.Some?
  {
    var p, pp := s.position.value, s.protection.value;
    if !ElapsedAtLeast(pp.lastAttempt, now, RETRY_INTERVAL) then NOTHING
    else if pp.retries >= MAX_RETRIES then Tally(0, 0, 0, 1)
    else
      var (s1, p1, pp1) := RetrySL(s, p, pp);
      Tally(1, Once(pp.needsSL && !pp1.needsSL), Once(pp.needsTP && s1.ex.calls !in s1.ex.failing), 0)
  }

  predicate FreshIds(s: State) {
    forall id :: id in s.ex.open ==> id <= s.ex.calls
  }

  predicate Shrinks(ex: Exchange, ex': Exchange) {
    ex'.open.Keys <= ex.open.Keys && ex.calls <= ex'.calls
  }

  lemma CancelShrinks(ex: Exchange, id: OrderId)
    ensures Shrinks(ex, ex.CancelIfSet(id))
  {
  }

  lemma CancelAllShrinks(ex: Exchange, p: Position)
    ensures Shrinks(ex, CancelAllOrders(ex, p))
  {
    var e1 := ex.CancelIfSet(p.slOrderId);
    var e2 := e1.CancelIfSet(p.tpOrderId);
    var e3 := e2.CancelIfSet(p.trailingOrderId);
    var e4 := e3.CancelIfSet(p.trailingSLOrderId);
    CancelShrinks(ex, p.slOrderId);
    CancelShrinks(e1, p.tpOrderId);
    CancelShrinks(e2, p.trailingOrderId);
    CancelShrinks(e3, p.trailingSLOrderId);
    CancelShrinks(e4, p.tp2OrderId);
  }

  /** The tally counts real orders: a counted stop (TP1) rests at the exchange as
      the record asked, under the cached position's id; an uncounted one does not. */
  predicate CountsOrders(s: State, s': State, t: Tally)
    requires s.protection.Some?
  {
    var pp := s.protection.value;
    && (t.stops == 1 ==>
          s'.position.Some? && s'.position.value.slOrderId in s'.ex.open &&
          s.ex.calls < s'.position.value.slOrderId &&
          s'.ex.open[s'.position.value.slOrderId] == Stop(pp.stopLoss))
    && (t.stops == 0 ==> forall id :: id in s'.ex.open && id > s.ex.calls ==> s'.ex.open[id].Limit?)
    && (t.takeProfits == 1 ==>
          s'.position.Some? && s'.position.value.tpOrderId in s'.ex.open &&
          s.ex.calls < s'.position.value.tpOrderId &&
          s'.ex.open[s'.position.value.tpOrderId] == Limit(pp.takeProfit, pp.tp1Qty))
    && (t.takeProfits == 0 ==> forall id :: id in s'.ex.open && id > s.ex.calls ==> s'.ex.open[id].Stop?)
  }

  lemma RoundCountsOrders(c: Config, s: State, now: int)
    requires s.position.Some? && Asks(s) && FreshIds(s) && s.protection.value.retries < MAX_RETRIES
    ensures CountsOrders(s, Call(c, s, now), CallTally(c, s, now))
  {
  }

  lemma TallyCountsOrders(c: Config, s: State, now: int)
    requires s.position.Some? && Asks(s) && FreshIds(s)
    ensures CountsOrders(s, Call(c, s, now), CallTally(c, s, now))
  {
    if s.protection.value.retries < MAX_RETRIES {
      RoundCountsOrders(c, s, now);
    } else {
      CancelAllShrinks(s.ex.Market().0, s.position.value);
    }
  }

  /** The last call gives the record up whatever happens to its market order: a
      force close is under way exactly when that order was accepted, and otherwise
      the position stays cached with the orders it had and no record. */
  lemma EmergencyCloseSentIff(c: Config, s: State, now: int)
    requires s.position.Some? && s.protection.Some? && s.protection.value.retries >= MAX_RETRIES
    requires ElapsedAtLeast(s.protection.value.lastAttempt, now, RETRY_INTERVAL)
    ensures var s' := Call(c, s, now);
            && s'.protection.None? && s'.position == s.position
            && (s'.forceCloseId.Some? <==> s.ex.calls !in s.ex.failing)
            && (s'.forceCloseId.None? ==> s'.ex.open == s.ex.open)
  {
    hide CancelAllOrders;
  }

  // ---------------------------------------------------------------- whole runs

  /** The rounds left to a record. */
  function RoundsLeft(pp: PendingProtection): nat {
    if pp.retries >= MAX_RETRIES then 0 else MAX_RETRIES - pp.retries
  }

  /** How retries that did `t` can have left record `pp`. */
  predicate Outcome(pp: PendingProtection, after: Option<PendingProtection>, t: Tally) {
    match after
    case Some(pp') =>
      && t.emergencies == 0
      && pp'.retries == pp.retries + t.rounds
      && pp'.needsSL == (pp.needsSL && t.stops == 0)
      && pp'.needsTP == (pp.needsTP && t.takeProfits == 0)
    case None =>
      || (t.emergencies == 0 && t.stops == Once(pp.needsSL) && t.takeProfits == Once(pp.needsTP))
      || (t.emergencies == 1 && t.rounds == RoundsLeft(pp)
          && t.stops + t.takeProfits < Once(pp.needsSL) + Once(pp.needsTP))
  }

  predicate Bounded(pp: PendingProtection, t: Tally) {
    && t.rounds <= RoundsLeft(pp)
    && t.stops <= Once(pp.needsSL)
    && t.takeProfits <= Once(pp.needsTP)
    && t.emergencies <= 1
  }

  /** A check that finds a position and a price. */
  predicate Checks(y: System, t: Timed) {
    t.event.Tick? && y.st.position.Some? && t.event.market.Some? && t.event.market.value != 0.0
  }

  function StepTally(c: Config, y: System, t: Timed): Tally {
    if Checks(y, t) && y.st.protection.Some? then CallTally(c, y.st, t.now) else NOTHING
  }

  function RunTally(c: Config, y: System, run: seq<Timed>): Tally
    decreases |run|
  {
    if run == [] then NOTHING
    else StepTally(c, y, run[0]).Plus(RunTally(c, Step(c, y, run[0]), run[1..]))
  }

  /** No step but check's retries rewrites the record. */
  predicate Unrewritten(c: Config, y: System, run: seq<Timed>)
    decreases |run|
  {
    run != [] ==>
      && (!run[0].event.Tick? ==> Step(c, y, run[0]).st.protection == y.st.protection)
      && Unrewritten(c, Step(c, y, run[0]), run[1..])
  }

  /** The price part of a check leaves the record alone. */
  lemma PricesKeepRecord(c: Config, s: State, p: Position, price: real, now: int, d: Decision)
    ensures CheckPrices(c, s, p, price, now, d).protection == s.protection
  {
    hide CancelAllOrders, ShouldCheckForceSL, BreakevenDue, TrackPrice;
  }

  lemma PendingNotRead(c: Config, s: State, pending: map<TradeId, PendingEntry>, now: int)
    requires s.position.Some? && s.protection.Some?
    ensures Call(c, s.(pending := pending), now).protection == Call(c, s, now).protection
  {
    hide CancelAllOrders;
  }

  lemma CheckIsCall(c: Config, y: System, t: Timed)
    requires t.event.Tick?
    ensures Step(c, y, t).st.protection
         == if Checks(y, t) && y.st.protection.Some? then Call(c, y.st, t.now).protection else y.st.protection
  {
    hide CheckPrices, RetryProtection;
    var s := AdvanceClock(y, t.now).st;
    if Checks(y, t) {
      if s.protection.Some? {
        PendingNotRead(c, y.st, s.pending, t.now);
      }
      var s1 := if s.protection.Some? then Call(c, s, t.now) else s;
      PricesKeepRecord(c, s1, s1.position.GetOr(s.position.value), t.event.market.value, t.now, t.event.decision);
    }
  }

  lemma OneCall(c: Config, s: State, now: int)
    requires s.position.Some? && Asks(s)
    ensures var s', t, pp := Call(c, s, now), CallTally(c, s, now), s.protection.value;
            && Outcome(pp, s'.protection, t) && Bounded(pp, t)
            && (s'.protection.Some? ==> Asks(s'))
            && (ElapsedAtLeast(pp.lastAttempt, now, RETRY_INTERVAL) && s'.protection.Some? ==>
                  t.rounds == 1 && s'.protection.value.lastAttempt == Some(now))
            && (!ElapsedAtLeast(pp.lastAttempt, now, RETRY_INTERVAL) ==> s' == s)
  {
    hide CancelAllOrders;
  }

  /** Over every run in which no other step rewrites the record, whatever else
      happens between the retries and whatever executor calls fail: at most the
      remaining rounds, one stop and one TP1; when the record is gone, either
      everything it asked for was placed or there was exactly one emergency close
      after the last round. */
  lemma {:induction false} RecordIsSettledOnce(c: Config, y: System, run: seq<Timed>)
    requires Asks(y.st) && Unrewritten(c, y, run)
    ensures var t, pp := RunTally(c, y, run), y.st.protection.value;
            Outcome(pp, Run(c, y, run).st.protection, t) && Bounded(pp, t) && RoundsLeft(pp) <= MAX_RETRIES
    decreases |run|
  {
    hide Step, StepTally, Outcome, Bounded;
    if run == [] {
      NothingDone(y.st.protection.value);
    } else {
      var y1 := Step(c, y, run[0]);
      OneStep(c, y, run[0]);
      if y1.st.protection.Some? {
        RecordIsSettledOnce(c, y1, run[1..]);
        Compose(y.st.protection.value, y1.st.protection.value, StepTally(c, y, run[0]),
                Run(c, y, run).st.protection, RunTally(c, y1, run[1..]));
      } else {
        NothingAfterwards(c, y1, run[1..]);
      }
    }
  }

  lemma NothingDone(pp: PendingProtection)
    requires pp.needsSL || pp.needsTP
    ensures Outcome(pp, Some(pp), NOTHING) && Bounded(pp, NOTHING)
  {
  }

  lemma Compose(pp: PendingProtection, mid: PendingProtection, t: Tally, after: Option<PendingProtection>, u: Tally)
    requires Outcome(pp, Some(mid), t) && Bounded(pp, t) && Outcome(mid, after, u) && Bounded(mid, u)
    ensures Outcome(pp, after, t.Plus(u)) && Bounded(pp, t.Plus(u))
  {
  }

  lemma OneStep(c: Config, y: System, t: Timed)
    requires Asks(y.st) && (!t.event.Tick? ==> Step(c, y, t).st.protection == y.st.protection)
    ensures var s', r, pp := Step(c, y, t).st, StepTally(c, y, t), y.st.protection.value;
            && Outcome(pp, s'.protection, r) && Bounded(pp, r)
            && (s'.protection.Some? ==> Asks(s'))
            && (if Checks(y, t) && ElapsedAtLeast(pp.lastAttempt, t.now, RETRY_INTERVAL)
                then s'.protection.Some? ==> r.rounds == 1 && s'.protection.value.lastAttempt == Some(t.now)
                else s'.protection == y.st.protection)
  {
    hide Step, Call, CallTally;
    if t.event.Tick? {
      CheckIsCall(c, y, t);
      if Checks(y, t) {
        OneCall(c, y.st, t.now);
      }
    }
  }

  lemma {:induction false} NothingAfterwards(c: Config, y: System, run: seq<Timed>)
    requires y.st.protection.None? && Unrewritten(c, y, run)
    ensures Run(c, y, run).st.protection.None? && RunTally(c, y, run) == NOTHING
    decreases |run|
  {
    hide Step;
    if run != [] {
      if run[0].event.Tick? {
        CheckIsCall(c, y, run[0]);
      }
      NothingAfterwards(c, Step(c, y, run[0]), run[1..]);
    }
  }

  /** Checks with a position and a price, at least the retry interval apart, the
      first one that long after `since`. */
  function DueChecks(c: Config, y: System, run: seq<Timed>, since: Option<int>): nat
    decreases |run|
  {
    if run == [] then 0
    else if Checks(y, run[0]) && ElapsedAtLeast(since, run[0].now, RETRY_INTERVAL)
    then 1 + DueChecks(c, Step(c, y, run[0]), run[1..], Some(run[0].now))
    else DueChecks(c, Step(c, y, run[0]), run[1..], since)
  }

  /** And it is gone once there were more due checks than rounds left. */
  lemma {:induction false} RecordIsSettled(c: Config, y: System, run: seq<Timed>)
    requires Asks(y.st) && Unrewritten(c, y, run)
    requires DueChecks(c, y, run, y.st.protection.value.lastAttempt) > RoundsLeft(y.st.protection.value)
    ensures Run(c, y, run).st.protection.None?
    decreases |run|
  {
    hide Step, CallTally, Call;
    var y1 := Step(c, y, run[0]);
    OneStep(c, y, run[0]);
    if y1.st.protection.Some? {
      RecordIsSettled(c, y1, run[1..]);
    } else {
      NothingAfterwards(c, y1, run[1..]);
    }
  }

  // ---------------------------------------------------------------- records that outlive their cause

  /** A retry round that is due. */
  predicate RoundDue(s: State, now: int) {
    && s.position.Some? && Asks(s)
    && s.protection.value.retries < MAX_RETRIES
    && ElapsedAtLeast(s.protection.value.lastAttempt, now, RETRY_INTERVAL)
  }

  /** The record asks for just what the position lacks. */
  predicate Fits(pp: PendingProtection, p: Position) {
    && !p.tp1Filled
    && (pp.needsSL <==> p.slOrderId == NO_ORDER)
    && (pp.needsTP ==> p.tpOrderId == NO_ORDER)
  }

  lemma FittingRoundMatches(c: Config, s: State, now: int)
    requires O.Matched(s) && s.ex.NoMoreFailures() && RoundDue(s, now) && Fits(s.protection.value, s.position.value)
    ensures O.OrdersMatch(Call(c, s, now))
  {
    assert s.ex.calls !in s.ex.failing && s.ex.calls + 1 !in s.ex.failing && s.ex.calls + 2 !in s.ex.failing;
  }

  lemma UnfitRoundOrphans(c: Config, s: State, now: int)
    requires O.Matched(s) && s.ex.NoMoreFailures() && RoundDue(s, now) && !Fits(s.protection.value, s.position.value)
    ensures !O.OrdersMatch(Call(c, s, now))
  {
    var p, pp, k := s.position.value, s.protection.value, s.ex.calls;
    assert k !in s.ex.failing && k + 1 !in s.ex.failing && k + 2 !in s.ex.failing;
    var q := Call(c, s, now).position.value;
    if p.tp1Filled {
      assert !O.NamesStop(q, k + 1) && !O.NamesLimit(q, k + 1);
    } else if pp.needsSL && p.slOrderId != NO_ORDER {
      assert !O.NamesStop(q, p.slOrderId) && !O.NamesLimit(q, p.slOrderId);
    } else if pp.needsTP && p.tpOrderId != NO_ORDER {
      assert !O.NamesStop(q, p.tpOrderId) && !O.NamesLimit(q, p.tpOrderId);
    } else {
      assert k + 1 in Call(c, s, now).ex.open && O.StopId(q) == NO_ORDER;
    }
  }

  /** A record carries no trade id and is not removed when its position is repaired
      or closed, so it may be retried over another one.  A round that succeeds
      leaves the right orders exactly when the record fits the position. */
  lemma RetryLeavesOrdersMatchedIff(c: Config, s: State, now: int)
    requires O.Matched(s) && s.ex.NoMoreFailures() && RoundDue(s, now)
    ensures O.OrdersMatch(Call(c, s, now)) <==> Fits(s.protection.value, s.position.value)
  {
    if Fits(s.protection.value, s.position.value) {
      FittingRoundMatches(c, s, now);
    } else {
      UnfitRoundOrphans(c, s, now);
    }
  }

  /** No closing fill of whatever kind removes the record. */
  lemma CloseKeepsRecord(c: Config, s: State, u: OrderUpdate, now: int)
    requires !u.marketSell
    ensures HandleUpdate(c, s, u, now).protection == s.protection
  {
  }

  /** Entry, stub and a fill whose stop cannot be placed; then the sweep repairs
      the position and a check finds the record still there. */
  function Failing(y: System, pe: PendingEntry, price: real): seq<Timed> {
    [At(y.clock, Enter(pe)), At(y.clock, WriteStub(pe.tradeId, price, y.clock)),
     At(y.clock, EntryFill(pe.tradeId, price, pe.quantity, y.clock))]
  }

  lemma FailingWritesRecord(c: Config, y: System, pe: PendingEntry, price: real)
    requires Idle(y) && y.st.ex.failing == {y.st.ex.calls + 1} && pe.tradeId != NIL_TRADE && price != 0.0
    requires pe.expiresAt == y.clock + PENDING_TTL
    ensures var y' := Run(c, y, Failing(y, pe, price));
            && y'.st.position == Some(Stub(pe, price, y.clock)) && y'.st.ex.open == map[]
            && y'.st.pending == map[pe.tradeId := pe] && y'.clock == y.clock
            && y'.st.ex.calls == y.st.ex.calls + 2 && y'.st.ex.failing == y.st.ex.failing
            && Asks(y'.st) && y'.st.protection.value.retries == 0 && y'.st.protection.value.lastAttempt.None?
            && y'.st.protection.value.needsSL
  {
    var run := Failing(y, pe, price);
    RunThree(c, y, run[0], run[1], run[2]);
  }

  lemma SweepRepairs(c: Config, y: System, pe: PendingEntry, price: real, live: LivePosition)
    requires y.st.position == Some(Stub(pe, price, y.clock)) && y.st.ex.open == map[] && pe.tradeId != NIL_TRADE
    requires y.st.pending == map[pe.tradeId := pe] && pe.expiresAt == y.clock + PENDING_TTL
    requires y.st.ex.NoMoreFailures() && 0 <= c.sweepGrace < PENDING_TTL
    ensures var s := Step(c, y, At(y.clock + c.sweepGrace, SweepTick(live))).st;
            && O.Matched(s) && s.ex.NoMoreFailures() && s.position.Some? && s.position.value.slOrderId != NO_ORDER
            && s.protection == y.st.protection
  {
    var k := y.st.ex.calls;
    assert k !in y.st.ex.failing && k + 1 !in y.st.ex.failing && k + 2 !in y.st.ex.failing;
  }

  /** Such records occur: one failed placement, and the sweep's repair leaves the
      record behind; the next check's retry then adds a second stop and TP1. */
  lemma StaleRecordDuplicatesOrders(c: Config, y: System, pe: PendingEntry, price: real, live: LivePosition)
    requires Idle(y) && y.st.ex.failing == {y.st.ex.calls + 1} && pe.tradeId != NIL_TRADE && price != 0.0
    requires pe.expiresAt == y.clock + PENDING_TTL && 0 <= c.sweepGrace < PENDING_TTL
    ensures var now := y.clock + c.sweepGrace;
            var s := Run(c, y, Failing(y, pe, price) + [At(now, SweepTick(live))]).st;
            O.OrdersMatch(s) && RoundDue(s, now) && !O.OrdersMatch(Call(c, s, now))
  {
    hide Step, O.Matched, O.OrdersMatch, Call;
    var y1, e := Run(c, y, Failing(y, pe, price)), At(y.clock + c.sweepGrace, SweepTick(live));
    FailingWritesRecord(c, y, pe, price);
    SweepRepairs(c, y1, pe, price, live);
    RunJoin(c, y, Failing(y, pe, price), [e]);
    RunCons(c, y1, e, []);
    assert [e] + [] == [e];
    RetryLeavesOrdersMatchedIff(c, Step(c, y1, e).st, e.now);
    MatchedMatches(Step(c, y1, e).st);
  }

  lemma MatchedMatches(s: State)
    requires O.Matched(s)
    ensures O.OrdersMatch(s)
  {
  }
}
