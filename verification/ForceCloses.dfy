/** How the fill of a force close is labelled. */
module ForceCloses {
  import opened Options
  import opened PositionSpec
  import opened Lifecycle
  import P = ProtectionRetry

  /** The record's last round is over. */
  predicate GivesUp(s: State, now: int) {
    && s.protection.Some?
    && s.protection.value.retries >= MAX_RETRIES
    && ElapsedAtLeast(s.protection.value.lastAttempt, now, RETRY_INTERVAL)
  }

  /** The force-stop engine is asked about the position. */
  predicate Asked(c: Config, p: Position, price: real, now: int) {
    c.forceSLOn && !p.tp1Filled && ShouldCheckForceSL(c, p, price, now)
  }

  /** A check that sends a market order to close. */
  predicate Forces(c: Config, y: System, t: Timed) {
    && P.Checks(y, t)
    && (GivesUp(y.st, t.now)
        || (t.event.decision.ForceClose? && Asked(c, y.st.position.value, t.event.market.value, t.now)))
  }

  predicate ForcesIn(c: Config, y: System, run: seq<Timed>)
    decreases |run|
  {
    run != [] && (Forces(c, y, run[0]) || ForcesIn(c, Step(c, y, run[0]), run[1..]))
  }

  /** An event that reports the fill of order f. */
  predicate Reports(t: Timed, f: OrderId) {
    match t.event
    case Fill(id, _, _) => id == f
    case Other(u) => u.clientId == f
    case _ => false
  }

  predicate Unreported(run: seq<Timed>, f: OrderId) {
    forall t :: t in run ==> !Reports(t, f)
  }

  // ---------------------------------------------------------------- the stored id

  predicate Names(s: State, f: OrderId) {
    s.position.Some? && var p := s.position.value;
    f == p.tpOrderId || f == p.tp2OrderId || f == p.trailingOrderId || f == p.trailingSLOrderId || f == p.slOrderId
  }

  /** Calls are numbered upwards, so an id once overwritten does not come back, and
      no position comes to name it. */
  predicate IdAfter(s: State, s': State, f: OrderId, forced: bool) {
    && (Names(s', f) ==> Names(s, f))
    && s.ex.calls <= s'.ex.calls
    && (forced ==> s'.forceCloseId != Some(f))
    && (!forced ==> (s'.forceCloseId == Some(f) <==> s.forceCloseId == Some(f)))
  }

  lemma ForceId(s: State, p: Position, f: OrderId)
    requires 0 < f <= s.ex.calls
    ensures IdAfter(s, ForceClosePosition(s, p), f, true)
  {
    var ex := s.ex.Market().0;
    P.CancelAllShrinks(ex, p);
    hide CancelAllOrders;
  }

  /** What the force-stop condition looks at. */
  predicate SameTrade(p: Position, q: Position) {
    && q.entryPrice == p.entryPrice && q.openedAt == p.openedAt && q.tp1Filled == p.tp1Filled
    && q.lastForceSLCheck == p.lastForceSLCheck
  }

  lemma RoundId(c: Config, s: State, pp: PendingProtection, f: OrderId)
    requires 0 < f <= s.ex.calls && s.position.Some?
    ensures var (s1, p1, pp1) := RetrySL(s, s.position.value, pp);
            IdAfter(s, s1, f, false) && s1.position == Some(p1) && SameTrade(s.position.value, p1)
    ensures var (s2, p2, pp2) := RetryTP(c, s, s.position.value, pp);
            IdAfter(s, s2, f, false) && s2.position == Some(p2) && SameTrade(s.position.value, p2)
  {
  }

  lemma RetryId(c: Config, s: State, now: int, f: OrderId)
    requires 0 < f <= s.ex.calls && s.position.Some? && s.protection.Some?
    ensures var s' := P.Call(c, s, now);
            && IdAfter(s, s', f, GivesUp(s, now))
            && s'.position.Some? && SameTrade(s.position.value, s'.position.value)
  {
    hide ForceClosePosition, RetrySL, RetryTP;
    var p, pp := s.position.value, s.protection.value;
    ForceId(s, p, f);
    ForceKeepsPosition(s, p);
    RoundId(c, s, pp, f);
    var (s1, p1, pp1) := RetrySL(s, p, pp);
    RoundId(c, s1, pp1, f);
  }

  lemma ForceKeepsPosition(s: State, p: Position)
    ensures ForceClosePosition(s, p).position == s.position && ForceClosePosition(s, p).protection == s.protection
  {
    hide CancelAllOrders;
  }

  lemma PricesId(c: Config, s: State, p: Position, price: real, now: int, d: Decision, f: OrderId)
    requires 0 < f <= s.ex.calls && s.position == Some(p)
    ensures IdAfter(s, CheckPrices(c, s, p, price, now, d), f, d.ForceClose? && Asked(c, p, price, now))
  {
    hide ForceClosePosition, BreakevenDue;
    ForceId(s, TrackPrice(p, price), f);
    ForceKeepsPosition(s, TrackPrice(p, price));
  }

  lemma CheckId(c: Config, y: System, t: Timed, f: OrderId)
    requires 0 < f <= y.st.ex.calls && t.event.Tick?
    ensures IdAfter(y.st, Step(c, y, t).st, f, Forces(c, y, t))
  {
    hide CheckPrices, RetryProtection, ForceClosePosition;
    var s := AdvanceClock(y, t.now).st;
    if P.Checks(y, t) {
      var p, price := s.position.value, t.event.market.value;
      var s1 := if s.protection.Some? then P.Call(c, s, t.now) else s;
      if s.protection.Some? {
        RetryId(c, s, t.now, f);
      }
      PricesId(c, s1, s1.position.GetOr(p), price, t.now, t.event.decision, f);
    }
  }

  lemma OrderEventId(c: Config, s: State, u: OrderUpdate, at: int, f: OrderId)
    requires (u.marketSell || u.clientId != f) && 0 < f <= s.ex.calls
    ensures IdAfter(s, HandleUpdate(c, s, u, at), f, false)
  {
    hide AvgClosePrice, PnlAt, FinalPnl;
  }

  lemma SweepId(c: Config, s: State, now: int, live: LivePosition, f: OrderId)
    requires 0 < f <= s.ex.calls
    ensures IdAfter(s, Sweep(c, s, now, live), f, false)
  {
  }

  lemma StepId(c: Config, y: System, t: Timed, f: OrderId)
    requires 0 < f <= y.st.ex.calls && !Reports(t, f)
    ensures IdAfter(y.st, Step(c, y, t).st, f, Forces(c, y, t))
  {
    hide HandleUpdate, Sweep, Check;
    var s := AdvanceClock(y, t.now).st;
    match t.event {
      case Tick(_, _) => CheckId(c, y, t, f);
      case SweepTick(live) => SweepId(c, s, t.now, live, f);
      case Fill(id, price, qty) => OrderEventId(c, AfterFill(s, id), FillUpdate(id, price, qty), t.now, f);
      case Other(u) => OrderEventId(c, s, u, t.now, f);
      case EntryFill(trade, price, qty, at) => OrderEventId(c, s, EntryUpdate(trade, price, qty), at, f);
      case _ =>
    }
  }

  /** Until its fill is reported, a force close's id stays stored exactly as long as
      no check sends another. */
  lemma {:induction false} StoredIff(c: Config, y: System, run: seq<Timed>, f: OrderId)
    requires 0 < f <= y.st.ex.calls && Unreported(run, f)
    ensures Run(c, y, run).st.forceCloseId == Some(f) <==> y.st.forceCloseId == Some(f) && !ForcesIn(c, y, run)
    ensures Names(Run(c, y, run).st, f) ==> Names(y.st, f)
    decreases |run|
  {
    hide Step, Forces, Reports;
    if run != [] {
      assert run[0] in run && Unreported(run[1..], f);
      StepId(c, y, run[0], f);
      StoredIff(c, Step(c, y, run[0]), run[1..], f);
    }
  }

  // ---------------------------------------------------------------- the label

  function FillOf(f: OrderId, price: real, qty: real): OrderUpdate {
    OrderUpdate(f, true, false, price, qty, true)
  }

  /** A force close's fill, reported after any run, closes the cached position as
      FORCE_CLOSE exactly when its id was stored and no check of the run sent
      another force close; otherwise as MANUAL. */
  lemma ForceFillLabelIff(c: Config, y: System, run: seq<Timed>, f: OrderId, price: real, qty: real, at: int)
    requires 0 < f <= y.st.ex.calls && !Names(y.st, f) && Unreported(run, f)
    requires var s := Run(c, y, run).st; s.position.Some? && s.position.value.tradeId != NIL_TRADE
    ensures var s := Run(c, y, run).st;
            var r := HandleUpdate(c, s, FillOf(f, price, qty), at).results;
            && |r| == |s.results| + 1
            && r[|s.results|].reason == if y.st.forceCloseId == Some(f) && !ForcesIn(c, y, run) then FORCE_CLOSE else MANUAL
  {
    hide Run, ForcesIn;
    StoredIff(c, y, run, f);
  }

  // ---------------------------------------------------------------- when one is sent

  /** A loss beyond a (negative) percentage of the entry price. */
  predicate LossBeyond(p: Position, price: real, pct: real) {
    (p.entryPrice - price) * 100.0 < pct * p.entryPrice
  }

  lemma RatioBelow(a: real, e: real, level: real)
    requires e > 0.0
    ensures a / e * 100.0 < level <==> a * 100.0 < level * e
  {
    var x := a / e;
    assert x * e == a;
    assert x * 100.0 * e == a * 100.0;
    if x * 100.0 < level {
      assert (level - x * 100.0) * e > 0.0;
    } else {
      assert (x * 100.0 - level) * e >= 0.0;
    }
  }

  /** Old enough, at a loss beyond the gate, and not asked about too recently for
      that loss. */
  predicate ForceDue(c: Config, p: Position, price: real, now: int) {
    var pause := if LossBeyond(p, price, c.forceSLEscalatePct) then c.forceSLFast else c.forceSLSlow;
    && now - p.openedAt >= c.forceSLStart
    && LossBeyond(p, price, c.forceSLGatePct)
    && (p.lastForceSLCheck.Some? ==> now - p.lastForceSLCheck.value >= pause)
  }

  lemma DueInRatios(c: Config, p: Position, price: real, now: int)
    requires p.entryPrice > 0.0
    ensures ForceDue(c, p, price, now) == ShouldCheckForceSL(c, p, price, now)
  {
    RatioBelow(p.entryPrice - price, p.entryPrice, c.forceSLGatePct);
    RatioBelow(p.entryPrice - price, p.entryPrice, c.forceSLEscalatePct);
  }

  /** A check of a short without record sends a market order exactly when the feature
      is on, TP1 has not filled, the position is due and the engine says so. */
  lemma ForceCloseSentIff(c: Config, s: State, price: real, now: int, d: Decision)
    requires s.position.Some? && s.protection.None? && s.position.value.entryPrice > 0.0 && price != 0.0
    requires s.ex.calls !in s.ex.failing && s.forceCloseId != Some(s.ex.calls + 1)
    ensures Check(c, s, Some(price), now, d).forceCloseId == Some(s.ex.calls + 1)
       <==> c.forceSLOn && !s.position.value.tp1Filled && d.ForceClose? && ForceDue(c, s.position.value, price, now)
  {
    var p := s.position.value;
    DueInRatios(c, p, price, now);
    AskedTracked(c, p, price, now);
    hide CancelAllOrders, BreakevenDue;
  }

  // ---------------------------------------------------------------- a second one is sent

  /** A check that force closes stores neither its time nor anything else in the
      position, so the next one at that price may do it again. */
  lemma ForcesAgain(c: Config, y: System, now: int, later: int, price: real)
    requires y.st.position.Some? && y.st.protection.None? && price != 0.0 && now <= later
    requires Asked(c, y.st.position.value, price, now)
    ensures var t, u := At(now, Tick(Some(price), ForceClose)), At(later, Tick(Some(price), ForceClose));
            && Forces(c, y, t) && Step(c, y, t).st.position == y.st.position
            && Forces(c, Step(c, y, t), u) && Step(c, Step(c, y, t), u).st.position == y.st.position
  {
    var p := y.st.position.value;
    AskedTracked(c, p, price, now);
    AskedTracked(c, p, price, later);
    hide ForceClosePosition, PnlBelow;
    var y1 := Step(c, y, At(now, Tick(Some(price), ForceClose)));
    ForceKeepsPosition(AdvanceClock(y, now).st, TrackPrice(p, price));
    ForceKeepsPosition(AdvanceClock(y1, later).st, TrackPrice(p, price));
  }

  lemma AskedTracked(c: Config, p: Position, price: real, now: int)
    ensures Asked(c, TrackPrice(p, price), price, now) == Asked(c, p, price, now)
  {
  }

  /** Then the first one's fill is persisted as MANUAL. */
  lemma FirstFillRelabelled(c: Config, y: System, now: int, later: int, price: real, fill: real, qty: real)
    requires y.st.position.Some? && y.st.protection.None? && price != 0.0 && now <= later
    requires y.st.position.value.tradeId != NIL_TRADE && !Names(y.st, y.st.ex.calls + 1)
    requires Asked(c, y.st.position.value, price, now) && y.st.ex.calls !in y.st.ex.failing
    ensures var t, u := At(now, Tick(Some(price), ForceClose)), At(later, Tick(Some(price), ForceClose));
            var y1, f := Step(c, y, t), y.st.ex.calls + 1;
            var r := HandleUpdate(c, Run(c, y1, [u]).st, FillOf(f, fill, qty), later).results;
            && y1.st.forceCloseId == Some(f)
            && |r| > 0 && r[|r| - 1].reason == MANUAL
  {
    var t, u := At(now, Tick(Some(price), ForceClose)), At(later, Tick(Some(price), ForceClose));
    var y1, f := Step(c, y, t), y.st.ex.calls + 1;
    ForcesAgain(c, y, now, later, price);
    FirstIdStored(c, y, now, price);
    assert !Names(y1.st, f);
    hide Step, Forces;
    RunCons(c, y1, u, []);
    assert [u] + [] == [u] && Run(c, Step(c, y1, u), []) == Step(c, y1, u);
    ForceFillLabelIff(c, y1, [u], f, fill, qty, later);
  }

  lemma FirstIdStored(c: Config, y: System, now: int, price: real)
    requires y.st.position.Some? && y.st.protection.None? && price != 0.0
    requires Asked(c, y.st.position.value, price, now) && y.st.ex.calls !in y.st.ex.failing
    ensures var y1 := Step(c, y, At(now, Tick(Some(price), ForceClose)));
            y1.st.forceCloseId == Some(y.st.ex.calls + 1) && y.st.ex.calls + 1 <= y1.st.ex.calls
  {
    AskedTracked(c, y.st.position.value, price, now);
    hide PnlBelow;
    P.CancelAllShrinks(y.st.ex.Market().0, TrackPrice(y.st.position.value, price));
    hide CancelAllOrders;
  }
}
