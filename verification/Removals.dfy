/** Whether an intent taken out of the queue can still be executed. */
module Removals {
  import opened Options
  import opened Windows
  import opened QueueSpec
  import R = QueueRuns
  import opened Deliveries

  /** What a running tick will still offer if everything before is skipped. */
  function StillToOffer(q: Queue): seq<Intent> {
    if q.gap.Some? && |q.tick| < |q.offered| then q.offered[|q.tick| + 1..] else []
  }

  /** Known, no longer queued, not in a running tick's copy, never handed out. */
  predicate Gone(q: Queue, id: nat) {
    && id in q.status
    && !HasId(q.intents, id)
    && !HasId(StillToOffer(q), id)
    && !HasId(q.started, id)
  }

  lemma TakeLeavesGone(q: Queue, i: Intent, id: nat)
    requires i.id != id && id in q.status && !HasId(q.intents, id) && !HasId(q.started, id)
    ensures var q' := Take(q, i); id in q'.status && !HasId(q'.intents, id) && !HasId(q'.started, id)
  {
    FilterMembers(q.intents, OtherThan(i));
  }

  lemma BeginTickLeavesGone(fireWindow: int, q: Queue, w: Window, until: int, now: int, id: nat)
    requires Gone(q, id) && q.gap.None?
    ensures Gone(BeginTickStep(fireWindow, q, w, until, now), id)
  {
    var q1 := q.(intents := Filter(q.intents, Unexpired(now)), tick := []);
    FilterMembers(q.intents, Unexpired(now));
    FilterMembers(q1.intents, EligibleFor(q1.status, w));
    var eligible := if Open(fireWindow, q1, w, until) then Filter(q1.intents, EligibleFor(q1.status, w)) else [];
    if eligible != [] {
      assert eligible[0] in eligible;
      TakeLeavesGone(q1.(offered := eligible, gap := Some(w)), eligible[0], id);
    }
  }

  lemma ReturnLeavesGone(q: Queue, skipped: bool, id: nat)
    requires R.Inv(q) && Gone(q, id) && q.gap.Some?
    ensures Gone(ReturnStep(q, skipped), id)
  {
    if skipped && |q.tick| + 1 < |q.offered| {
      var rest := StillToOffer(q);
      assert rest[0] in rest;
      var d := Delivery(q.offered[|q.tick|], q.gap.value, true);
      TakeLeavesGone(q.(tick := q.tick + [d], cycle := q.cycle + [d]), rest[0], id);
      assert StillToOffer(ReturnStep(q, skipped)) == rest[1..];
    }
  }

  lemma StepLeavesGone(fireWindow: int, q: Queue, op: Op, q': Queue, id: nat)
    requires R.Inv(q) && Gone(q, id) && Next(fireWindow, q, op, q')
    ensures Gone(q', id)
  {
    match op {
      case Enqueue(i) =>
        assert forall x :: x in q'.intents <==> x in multiset(q'.intents);
        assert forall x :: x in Insert(q, i) <==> x in multiset(Insert(q, i));
      case BeginTick(w, until, now) => BeginTickLeavesGone(fireWindow, q, w, until, now, id);
      case Return(skipped) => ReturnLeavesGone(q, skipped, id);
      case Claim =>
        FilterMembers(q.intents, EligibleFor(q.status, AFTER));
        if Claimable(q).Some? {
          TakeLeavesGone(q, Claimable(q).value, id);
        }
      case CancelBySymbol(symbol) => FilterMembers(q.intents, NotPendingSymbol(q.status, symbol));
      case ClearAfterSettlement =>
    }
  }

  lemma {:induction false} GoneForGood(fireWindow: int, q: Queue, h: History, id: nat)
    requires R.Inv(q) && Gone(q, id) && IsHistory(fireWindow, q, h)
    ensures Gone(Last(q, h), id)
  {
    if h != [] {
      var t, x := h[..|h| - 1], h[|h| - 1];
      GoneForGood(fireWindow, q, t, id);
      R.InvReached(fireWindow, q, t);
      StepLeavesGone(fireWindow, Last(q, t), x.0, x.1, id);
    }
  }

  /** A step that takes a queued intent out without handing it out: a cancel, a
      replacement by the symbol's next intent, a clear, an expiry. */
  predicate Removes(fireWindow: int, q: Queue, op: Op, q': Queue, i: Intent) {
    && Next(fireWindow, q, op, q')
    && i in q.intents && !HasId(q'.intents, i.id) && !HasId(q'.started, i.id)
  }

  /** A removed intent is handed out later exactly when a running tick has it in
      its copy beyond the intent being executed: neither Cancel nor a replacement
      nor a clear reaches that copy. */
  lemma RemovedDeliveredIff(fireWindow: int, q: Queue, op: Op, q': Queue, i: Intent)
    requires R.Inv(q) && Removes(fireWindow, q, op, q', i)
    ensures (exists h: History :: IsHistory(fireWindow, q', h) && HasId(Last(q', h).started, i.id))
       <==> HasId(StillToOffer(q'), i.id)
  {
    R.StepKeeps(fireWindow, q, op, q');
    if HasId(StillToOffer(q'), i.id) {
      var _ := TickReaches(fireWindow, q', i.id);
    } else {
      StatusKept(fireWindow, q, op, q', i.id);
      forall h: History | IsHistory(fireWindow, q', h)
        ensures !HasId(Last(q', h).started, i.id)
      {
        GoneForGood(fireWindow, q', h, i.id);
      }
    }
  }

  lemma StatusKept(fireWindow: int, q: Queue, op: Op, q': Queue, id: nat)
    requires R.Inv(q) && Next(fireWindow, q, op, q') && id in q.status
    ensures id in q'.status
  {
  }

  lemma TickReaches(fireWindow: int, q: Queue, id: nat) returns (h: History)
    requires R.Inv(q) && HasId(StillToOffer(q), id)
    ensures IsHistory(fireWindow, q, h) && HasId(Last(q, h).started, id)
  {
    hide IsHistory, R.Inv;
    var rest := StillToOffer(q);
    var i :| i in rest && i.id == id;
    var m :| 0 <= m < |rest| && rest[m] == i;
    var n := |q.tick| + 1 + m;
    h := SkipTo(fireWindow, q, n);
    var skipped := q.offered[|q.tick| + 1..n + 1];
    assert skipped[m] == i && skipped[m] in skipped;
    assert i in Last(q, h).started;
  }

  /** Only a tick that is running when the intent is removed can still run it:
      with the lock free of ticks, Cancel is final. */
  lemma CancelledBetweenTicksIsFinal(fireWindow: int, q: Queue, symbol: string, i: Intent, h: History)
    requires R.Inv(q) && q.gap.None? && i in q.intents && i.symbol == symbol
    requires var q' := q.(intents := Filter(q.intents, NotPendingSymbol(q.status, symbol)));
             IsHistory(fireWindow, q', h)
    ensures var q' := q.(intents := Filter(q.intents, NotPendingSymbol(q.status, symbol)));
            !HasId(Last(q', h).started, i.id)
  {
    var q' := q.(intents := Filter(q.intents, NotPendingSymbol(q.status, symbol)));
    FilterMembers(q.intents, NotPendingSymbol(q.status, symbol));
    PendingNotStarted(q, i);
    assert Removes(fireWindow, q, CancelBySymbol(symbol), q', i);
    RemovedDeliveredIff(fireWindow, q, CancelBySymbol(symbol), q', i);
  }
}
