/** How far the cached positions can exceed trading.max_positions. */
module PositionLimit {
  import opened Options
  import opened ExecutionEngine

  /** The calls under way whose order was not refused. */
  function Running(e: Engine): map<TradeId, Attempt> {
    map t | t in e.calls && !e.calls[t].phase.Rejected? :: e.calls[t]
  }

  /** The records of other entries than refused ones. */
  function Awaited(e: Engine): map<TradeId, PendingEntry> {
    map t | t in e.pending && (t in e.calls ==> !e.calls[t].phase.Rejected?) :: e.pending[t]
  }

  /** The symbols cached or about to be. */
  function Claimed(e: Engine): set<Symbol> {
    e.positions.Keys + (set t | t in Running(e) :: Running(e)[t].c.symbol) + (set t | t in Awaited(e) :: Awaited(e)[t].symbol)
  }

  lemma ClaimedHolds(e: Engine)
    ensures e.positions.Keys <= Claimed(e)
    ensures forall t :: t in Running(e) ==> Running(e)[t].c.symbol in Claimed(e)
    ensures forall t :: t in Awaited(e) ==> Awaited(e)[t].symbol in Claimed(e)
  {
    hide Running, Awaited;
  }

  lemma ClaimedWithin(e: Engine, s: set<Symbol>)
    requires e.positions.Keys <= s
    requires forall t :: t in Running(e) ==> Running(e)[t].c.symbol in s
    requires forall t :: t in Awaited(e) ==> Awaited(e)[t].symbol in s
    ensures Claimed(e) <= s
  {
    hide Running, Awaited;
  }

  /** Nothing cached is lost, and what was under way still is or is cached. */
  predicate CarriesOn(e: Engine, e': Engine) {
    && e.positions.Keys <= e'.positions.Keys
    && (forall t :: t in Running(e) ==>
                      (t in Running(e') && Running(e')[t].c == Running(e)[t].c) || Running(e)[t].c.symbol in e'.positions)
    && (forall t :: t in Awaited(e) ==>
                      (t in Awaited(e') && Awaited(e')[t].symbol == Awaited(e)[t].symbol)
                      || Awaited(e)[t].symbol in e'.positions)
  }

  lemma CarryingOnClaims(e: Engine, e': Engine)
    requires CarriesOn(e, e')
    ensures Claimed(e) <= Claimed(e')
  {
    hide Claimed, Running, Awaited;
    ClaimedHolds(e');
    ClaimedWithin(e, Claimed(e'));
  }

  /** Any other step than an admission: what is cached, running or awaited after it
      was claimed before. */
  lemma NothingElseCached(l: Limits, e: Engine, op: Op, s: Symbol)
    requires Consistent(e) && !op.Guard? && s in Step(l, e, op).positions
    ensures s in Claimed(e)
  {
    hide Margin, Quantity, Claimed;
    ClaimedHolds(e);
    assert s in e.positions || (op.WriteStub? && s == Running(e)[op.trade].c.symbol)
                            || (op.FillHandled? && s == Awaited(e)[op.trade].symbol);
  }

  lemma NothingElseRuns(l: Limits, e: Engine, op: Op, t: TradeId)
    requires Consistent(e) && !op.Guard? && t in Running(Step(l, e, op))
    ensures Running(Step(l, e, op))[t].c.symbol in Claimed(e)
  {
    hide Margin, Quantity, Claimed;
    ClaimedHolds(e);
    assert t in Running(e) && Running(e)[t].c == Running(Step(l, e, op))[t].c;
  }

  lemma NothingElseAwaited(l: Limits, e: Engine, op: Op, t: TradeId)
    requires Consistent(e) && !op.Guard? && t in Awaited(Step(l, e, op))
    ensures Awaited(Step(l, e, op))[t].symbol in Claimed(e)
  {
    hide Margin, Quantity, Claimed;
    ClaimedHolds(e);
    var e' := Step(l, e, op);
    assert (t in Awaited(e) && Awaited(e)[t] == Awaited(e')[t])
        || (op.Record? && t in Running(e) && Awaited(e')[t].symbol == Running(e)[t].c.symbol);
  }

  lemma NothingElseClaims(l: Limits, e: Engine, op: Op)
    requires Consistent(e) && !Admits(l, e, op)
    ensures Claimed(Step(l, e, op)) <= Claimed(e)
  {
    if !op.Guard? {
      hide Step, Claimed, Running, Awaited, Consistent;
      var e' := Step(l, e, op);
      forall s | s in e'.positions { NothingElseCached(l, e, op, s); }
      forall t | t in Running(e') { NothingElseRuns(l, e, op, t); }
      forall t | t in Awaited(e') { NothingElseAwaited(l, e, op, t); }
      ClaimedWithin(e', Claimed(e));
    }
  }

  /** Only an admission claims a new symbol. */
  lemma StepClaims(l: Limits, e: Engine, op: Op)
    requires Consistent(e)
    ensures if Admits(l, e, op) then Claimed(Step(l, e, op)) == Claimed(e) + {op.c.symbol}
            else Claimed(Step(l, e, op)) <= Claimed(e)
  {
    hide Margin, Quantity, GuardVerdict, Claimed;
    if Admits(l, e, op) {
      var e' := Step(l, e, op);
      ClaimedHolds(e);
      ClaimedHolds(e');
      assert Running(e')[op.trade].c.symbol == op.c.symbol;
      CarryingOnClaims(e, e');
      ClaimedWithin(e', Claimed(e) + {op.c.symbol});
    } else {
      NothingElseClaims(l, e, op);
    }
  }

  /** Entries whose position is still to be written: calls under way that were not
      refused, and other entries' records without a cached position. */
  function Due(e: Engine): set<TradeId> {
    Running(e).Keys + Uncached(Awaited(e), e.positions)
  }

  function Uncached(pending: map<TradeId, PendingEntry>, positions: map<Symbol, Holding>): set<TradeId> {
    set t | t in pending && pending[t].symbol !in positions
  }

  function SymbolOf(e: Engine, t: TradeId): Symbol
    requires t in Due(e)
  {
    if t in Running(e) then Running(e)[t].c.symbol else Awaited(e)[t].symbol
  }

  lemma {:induction false} ImageNotLarger(e: Engine, d: set<TradeId>)
    requires d <= Due(e)
    ensures |set t | t in d :: SymbolOf(e, t)| <= |d|
    decreases |d|
  {
    hide Due;
    if d != {} {
      var t :| t in d;
      ImageNotLarger(e, d - {t});
      assert (set u | u in d :: SymbolOf(e, u)) == (set u | u in d - {t} :: SymbolOf(e, u)) + {SymbolOf(e, t)};
    }
  }

  lemma ClaimedIsDue(e: Engine)
    requires Consistent(e)
    ensures Claimed(e) == e.positions.Keys + set t | t in Due(e) :: SymbolOf(e, t)
  {
    var image := set t | t in Due(e) :: SymbolOf(e, t);
    forall t | t in Running(e)
      ensures Running(e)[t].c.symbol in image
    {
      assert t in Due(e) && SymbolOf(e, t) == Running(e)[t].c.symbol;
    }
    forall t | t in Awaited(e)
      ensures Awaited(e)[t].symbol in e.positions.Keys + image
    {
      if Awaited(e)[t].symbol !in e.positions {
        assert t in Due(e) && SymbolOf(e, t) == Awaited(e)[t].symbol;
      }
    }
    forall s | s in image
      ensures s in Claimed(e)
    {
      var t :| t in Due(e) && SymbolOf(e, t) == s;
    }
  }

  lemma ClaimedSize(e: Engine)
    requires Consistent(e)
    ensures |e.positions| <= |Claimed(e)| <= |e.positions| + |Due(e)|
  {
    hide Claimed, Due, SymbolOf, Consistent;
    ImageNotLarger(e, Due(e));
    ClaimedIsDue(e);
    SubsetSize(e.positions.Keys, Claimed(e));
  }

  lemma SubsetSize<T>(a: set<T>, b: set<T>)
    requires a <= b
    ensures |a| <= |b|
  {
    assert b == a + (b - a);
  }

  /** Never more than k entries are due. */
  predicate DueWithin(l: Limits, e: Engine, run: seq<Op>, k: nat)
    decreases |run|
  {
    |Due(e)| <= k && (run != [] ==> DueWithin(l, Step(l, e, run[0]), run[1..], k))
  }

  lemma StepWithinOverlap(l: Limits, e: Engine, op: Op, k: nat)
    requires Consistent(e) && |Claimed(e)| <= l.maxPositions + k && |Due(Step(l, e, op))| <= k
    ensures Consistent(Step(l, e, op)) && |Claimed(Step(l, e, op))| <= l.maxPositions + k
  {
    hide Claimed, Due;
    StepConsistent(l, e, op);
    StepClaims(l, e, op);
    if Admits(l, e, op) {
      ClaimedSize(Step(l, e, op));
    } else {
      SubsetSize(Claimed(Step(l, e, op)), Claimed(e));
    }
  }

  /** The guard compares the cached count with `>` and counts no call under way:
      over every run the count stays within MaxPositions plus the greatest number
      of entries due at a time. */
  lemma {:induction false} PositionsWithinOverlap(l: Limits, e: Engine, run: seq<Op>, k: nat)
    requires Consistent(e) && |Claimed(e)| <= l.maxPositions + k && DueWithin(l, e, run, k)
    ensures |Run(l, e, run).positions| <= |Claimed(Run(l, e, run))| <= l.maxPositions + k
    decreases |run|
  {
    hide Consistent, Claimed, Due, Step;
    if run == [] {
      ClaimedSize(e);
    } else {
      StepWithinOverlap(l, e, run[0], k);
      PositionsWithinOverlap(l, Step(l, e, run[0]), run[1..], k);
    }
  }

  // ---------------------------------------------------------------- when the limit is exceeded

  /** A run of what is already under way: no further call is admitted. */
  predicate NoGuard(run: seq<Op>) {
    forall op :: op in run ==> !op.Guard?
  }

  lemma {:induction false} NothingNewClaimed(l: Limits, e: Engine, run: seq<Op>)
    requires Consistent(e) && NoGuard(run)
    ensures Run(l, e, run).positions.Keys <= Claimed(e)
    decreases |run|
  {
    hide Consistent, Claimed, Step;
    if run == [] {
      PositionsClaimed(e);
    } else {
      assert run[0] in run && NoGuard(run[1..]);
      StepConsistent(l, e, run[0]);
      StepClaims(l, e, run[0]);
      NothingNewClaimed(l, Step(l, e, run[0]), run[1..]);
    }
  }

  lemma PositionsClaimed(e: Engine)
    ensures e.positions.Keys <= Claimed(e)
  {
  }

  /** The next step that brings entry t's position closer to the cache: a funded
      record, an accepted order, the stub write, or the fill handler. */
  function Advance(e: Engine, t: TradeId): Op
    requires t in Due(e)
  {
    if t !in Running(e) then FillHandled(t)
    else match Running(e)[t].phase
         case Checked => Record(t, Some(Balance(100.0, MAX_MARGIN)))
         case Recorded(_) => Order(t, true)
         case _ => WriteStub(t, 0.0)
  }

  function CheckedCalls(e: Engine): set<TradeId> {
    set t | t in e.calls && e.calls[t].phase.Checked?
  }

  function RecordedCalls(e: Engine): set<TradeId> {
    set t | t in e.calls && e.calls[t].phase.Recorded?
  }

  /** Closer to the cache, with no claim given up. */
  predicate Closer(e: Engine, e': Engine) {
    && Claimed(e) <= Claimed(e')
    && (Due(e') < Due(e)
        || (Due(e') == Due(e) && CheckedCalls(e') < CheckedCalls(e))
        || (Due(e') == Due(e) && CheckedCalls(e') == CheckedCalls(e) && RecordedCalls(e') < RecordedCalls(e)))
  }

  lemma RecordKeepsDue(l: Limits, e: Engine, t: TradeId)
    requires Consistent(e) && t in e.calls && e.calls[t].phase.Checked?
    ensures Due(Step(l, e, Record(t, Some(Balance(100.0, MAX_MARGIN))))) == Due(e)
  {
    hide Quantity;
    var e' := Step(l, e, Record(t, Some(Balance(100.0, MAX_MARGIN))));
    assert Running(e').Keys == Running(e).Keys;
  }

  lemma RecordGoesThrough(l: Limits, e: Engine, t: TradeId)
    requires Consistent(e) && t in e.calls && e.calls[t].phase.Checked?
    ensures Closer(e, Step(l, e, Record(t, Some(Balance(100.0, MAX_MARGIN)))))
  {
    hide Quantity, Claimed, Due;
    var e' := Step(l, e, Record(t, Some(Balance(100.0, MAX_MARGIN))));
    CarryingOnClaims(e, e');
    RecordKeepsDue(l, e, t);
    assert CheckedCalls(e') == CheckedCalls(e) - {t};
  }

  lemma OrderGoesThrough(l: Limits, e: Engine, t: TradeId)
    requires Consistent(e) && t in e.calls && e.calls[t].phase.Recorded?
    ensures Closer(e, Step(l, e, Order(t, true)))
  {
    hide Claimed;
    var e' := Step(l, e, Order(t, true));
    CarryingOnClaims(e, e');
    assert RecordedCalls(e') == RecordedCalls(e) - {t};
    assert CheckedCalls(e') == CheckedCalls(e);
    assert Due(e') == Due(e);
  }

  lemma StubGoesThrough(l: Limits, e: Engine, t: TradeId)
    requires Consistent(e) && t in e.calls && e.calls[t].phase.Ordered?
    ensures Closer(e, Step(l, e, WriteStub(t, 0.0)))
  {
    hide Claimed;
    var e' := Step(l, e, WriteStub(t, 0.0));
    CarryingOnClaims(e, e');
    assert t in Due(e) && t !in Due(e') && Due(e') <= Due(e);
  }

  lemma UncachedAfterFill(pending: map<TradeId, PendingEntry>, positions: map<Symbol, Holding>, t: TradeId)
    requires t in pending
    ensures Uncached(pending - {t}, positions[pending[t].symbol := Finalised(t)]) <= Uncached(pending, positions) - {t}
  {
  }

  lemma FillGoesThrough(l: Limits, e: Engine, t: TradeId)
    requires Consistent(e) && t in Due(e) && t !in e.calls
    ensures Closer(e, Step(l, e, FillHandled(t)))
  {
    hide Claimed;
    var e' := Step(l, e, FillHandled(t));
    CarryingOnClaims(e, e');
    UncachedAfterFill(Awaited(e), e.positions, t);
    assert Awaited(e') == Awaited(e) - {t} && Running(e') == Running(e);
    hide Uncached, Awaited, Running;
    assert Due(e') <= Due(e) - {t};
  }

  lemma Advances(l: Limits, e: Engine, t: TradeId)
    requires Consistent(e) && t in Due(e)
    ensures Consistent(Step(l, e, Advance(e, t))) && Closer(e, Step(l, e, Advance(e, t)))
    ensures !Advance(e, t).Guard?
  {
    StepConsistent(l, e, Advance(e, t));
    hide Consistent, Claimed, Closer, Step;
    if t !in Running(e) {
      FillGoesThrough(l, e, t);
    } else {
      match Running(e)[t].phase {
        case Checked => RecordGoesThrough(l, e, t);
        case Recorded(_) => OrderGoesThrough(l, e, t);
        case _ => StubGoesThrough(l, e, t);
      }
    }
  }

  /** Everything under way can end in the cache. */
  lemma {:induction false} FinishAll(l: Limits, e: Engine) returns (run: seq<Op>)
    requires Consistent(e)
    ensures NoGuard(run) && Run(l, e, run).positions.Keys == Claimed(e) && DueWithin(l, e, run, |Due(e)|)
    decreases Due(e), CheckedCalls(e), RecordedCalls(e)
  {
    hide Consistent, Claimed, Due, CheckedCalls, RecordedCalls, Step, Advance;
    if Due(e) == {} {
      run := [];
      NoneDue(l, e);
    } else {
      var t :| t in Due(e);
      var op := Advance(e, t);
      var e' := Step(l, e, op);
      Advances(l, e, t);
      SubsetSize(Due(e'), Due(e));
      var rest := FinishAll(l, e');
      run := [op] + rest;
      assert run[1..] == rest;
      DueWithinMore(l, e', rest, |Due(e')|, |Due(e)|);
      NothingNewClaimed(l, e, run);
    }
  }

  lemma {:induction false} DueWithinMore(l: Limits, e: Engine, run: seq<Op>, m: nat, k: nat)
    requires DueWithin(l, e, run, m) && m <= k
    ensures DueWithin(l, e, run, k)
    decreases |run|
  {
    hide Step, Due;
    if run != [] {
      DueWithinMore(l, Step(l, e, run[0]), run[1..], m, k);
    }
  }

  lemma NoneDue(l: Limits, e: Engine)
    requires Consistent(e) && Due(e) == {}
    ensures Run(l, e, []).positions.Keys == Claimed(e) && DueWithin(l, e, [], 0)
  {
    hide Claimed;
    ClaimedIsDue(e);
  }

  lemma {:induction false} DueJoin(l: Limits, e: Engine, a: seq<Op>, b: seq<Op>, m: nat, k: nat)
    requires DueWithin(l, e, a, k) && DueWithin(l, Run(l, e, a), b, m) && m <= k
    ensures DueWithin(l, e, a + b, k)
    decreases |a|
  {
    hide Step, Due;
    if a == [] {
      assert a + b == b;
      DueWithinMore(l, e, b, m, k);
    } else {
      DueJoin(l, Step(l, e, a[0]), a[1..], b, m, k);
      assert (a + b)[1..] == a[1..] + b;
    }
  }

  /** What is under way can exceed the limit exactly when more symbols than
      MaxPositions are cached or claimed. */
  lemma LimitCanBeExceededIff(l: Limits, e: Engine)
    requires Consistent(e)
    ensures (exists run :: NoGuard(run) && |Run(l, e, run).positions| > l.maxPositions) <==> |Claimed(e)| > l.maxPositions
  {
    hide Consistent, Claimed, NoGuard, Run;
    if |Claimed(e)| > l.maxPositions {
      var run := FinishAll(l, e);
      assert |Run(l, e, run).positions| == |Run(l, e, run).positions.Keys|;
    } else {
      forall run | NoGuard(run)
        ensures |Run(l, e, run).positions| <= l.maxPositions
      {
        NothingNewClaimed(l, e, run);
        SubsetSize(Run(l, e, run).positions.Keys, Claimed(e));
      }
    }
  }

  /** A call admitted while the limit is safe endangers it exactly when MaxPositions
      symbols are claimed already and its own is not one of them. */
  lemma AdmissionEndangersLimitIff(l: Limits, e: Engine, op: Op)
    requires Consistent(e) && Admits(l, e, op) && |Claimed(e)| <= l.maxPositions
    ensures (exists run :: NoGuard(run) && |Run(l, Step(l, e, op), run).positions| > l.maxPositions)
       <==> |Claimed(e)| == l.maxPositions && op.c.symbol !in Claimed(e)
  {
    hide Claimed, NoGuard, Run, Step, Admits;
    StepConsistent(l, e, op);
    StepClaims(l, e, op);
    LimitCanBeExceededIff(l, Step(l, e, op));
  }

  const ALL_CLEAR: Checks := Checks(Some(false), true, None)

  function Guards(calls: seq<(TradeId, Candidate)>): seq<Op> {
    if calls == [] then [] else [Guard(calls[0].0, calls[0].1, ALL_CLEAR)] + Guards(calls[1..])
  }

  /** Calls for new symbols under new trade ids. */
  predicate NewCalls(e: Engine, calls: seq<(TradeId, Candidate)>) {
    && (forall i :: 0 <= i < |calls| ==> calls[i].0 !in e.used && calls[i].1.symbol !in Claimed(e))
    && (forall i, j :: 0 <= i < j < |calls| ==> calls[i].0 != calls[j].0 && calls[i].1.symbol != calls[j].1.symbol)
  }

  lemma OneAdmitted(l: Limits, e: Engine, t: TradeId, c: Candidate)
    requires Consistent(e) && |e.positions| <= l.maxPositions && t !in e.used && c.symbol !in Claimed(e)
    ensures var op := Guard(t, c, ALL_CLEAR);
            && Admits(l, e, op) && Step(l, e, op).positions == e.positions
            && Step(l, e, op).used == e.used + {t} && Due(Step(l, e, op)) == Due(e) + {t} && t !in Due(e)
  {
    hide Claimed, Due, Consistent, Step, Admits;
    PositionsClaimed(e);
    NotDueYet(e, t);
    AdmittedStep(l, e, t, c);
    OneMoreDue(e, t, c);
  }

  lemma OneMoreDue(e: Engine, t: TradeId, c: Candidate)
    requires Consistent(e) && t !in e.used
    ensures Due(e.(calls := e.calls[t := Attempt(c, Checked)], used := e.used + {t})) == Due(e) + {t}
  {
    var e' := e.(calls := e.calls[t := Attempt(c, Checked)], used := e.used + {t});
    assert Awaited(e') == Awaited(e);
    assert Running(e').Keys == Running(e).Keys + {t};
  }

  lemma AdmittedStep(l: Limits, e: Engine, t: TradeId, c: Candidate)
    requires |e.positions| <= l.maxPositions && t !in e.used && c.symbol !in e.positions
    ensures var op := Guard(t, c, ALL_CLEAR);
            && Admits(l, e, op)
            && Step(l, e, op) == e.(calls := e.calls[t := Attempt(c, Checked)], used := e.used + {t})
  {
  }

  lemma NotDueYet(e: Engine, t: TradeId)
    requires Consistent(e) && t !in e.used
    ensures t !in Due(e)
  {
  }

  /** Calls that all pass the guard before any writes its stub. */
  lemma {:induction false} AllAdmitted(l: Limits, e: Engine, calls: seq<(TradeId, Candidate)>, k: nat)
    requires Consistent(e) && |e.positions| <= l.maxPositions && NewCalls(e, calls) && |Due(e)| + |calls| <= k
    ensures var e' := Run(l, e, Guards(calls));
            && Consistent(e') && |Claimed(e')| == |Claimed(e)| + |calls| && |Due(e')| == |Due(e)| + |calls|
            && DueWithin(l, e, Guards(calls), k)
    decreases |calls|
  {
    hide Consistent, Claimed, Due, Step, Admits;
    if calls != [] {
      var op := Guard(calls[0].0, calls[0].1, ALL_CLEAR);
      var e1 := Step(l, e, op);
      OneAdmitted(l, e, calls[0].0, calls[0].1);
      StepConsistent(l, e, op);
      StepClaims(l, e, op);
      AllAdmitted(l, e1, calls[1..], k);
      assert Guards(calls)[1..] == Guards(calls[1..]);
    }
  }

  /** The bound is met: any number of overlapping calls for new symbols can all be
      cached, however full the cache was, so from MaxPositions positions k calls
      end in MaxPositions + k. */
  lemma OverlapIsCached(l: Limits, e: Engine, calls: seq<(TradeId, Candidate)>)
    requires Consistent(e) && |e.positions| <= l.maxPositions && Due(e) == {} && NewCalls(e, calls)
    ensures exists run :: DueWithin(l, e, run, |calls|) && |Run(l, e, run).positions| == |e.positions| + |calls|
  {
    hide NewCalls, DueWithin, Guards, Run, Consistent, Due, Claimed, NoGuard, Step;
    var e1 := Run(l, e, Guards(calls));
    AllAdmitted(l, e, calls, |calls|);
    var rest := FinishAll(l, e1);
    RunJoin(l, e, Guards(calls), rest);
    DueJoin(l, e, Guards(calls), rest, |Due(e1)|, |calls|);
    ClaimedSize(e);
    assert |Run(l, e1, rest).positions| == |Run(l, e1, rest).positions.Keys|;
  }
}
