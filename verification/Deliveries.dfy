/** How often and in which order the queue hands intents out. */
module Deliveries {
  import opened Options
  import opened Windows
  import opened QueueSpec
  import R = QueueRuns

  // ---------------------------------------------------------------- order within a tick

  /** A tick delivers its eligible intents best first and stops at the first one
      that is not skipped. */
  predicate BestFirst(q: Queue) {
    && Ranked(q.offered)
    && |q.tick| <= |q.offered|
    && (forall i :: 0 <= i < |q.tick| ==> q.tick[i].intent == q.offered[i])
    && (forall i :: 0 <= i < |q.tick| - 1 ==> q.tick[i].skipped)
    && (q.gap.Some? ==> forall i :: 0 <= i < |q.tick| ==> q.tick[i].skipped)
    && (q.gap.None? ==> |q.tick| == |q.offered| || (q.tick != [] && !q.tick[|q.tick| - 1].skipped))
  }

  lemma BestFirstStep(fireWindow: int, q: Queue, op: Op, q': Queue)
    requires R.Inv(q) && BestFirst(q) && Next(fireWindow, q, op, q')
    ensures BestFirst(q')
  {
    hide Filter, Insert, R.WellFormed, Claimable;
    match op {
      case BeginTick(w, until, now) => R.BeginTickKeeps(fireWindow, q, w, until, now);
      case _ =>
    }
  }

  lemma {:induction false} EveryTickBestFirst(fireWindow: int, h: History)
    requires IsHistory(fireWindow, EMPTY, h)
    ensures BestFirst(Last(EMPTY, h))
  {
    if h != [] {
      var t, x := h[..|h| - 1], h[|h| - 1];
      EveryTickBestFirst(fireWindow, t);
      R.InvReached(fireWindow, EMPTY, t);
      BestFirstStep(fireWindow, Last(EMPTY, t), x.0, x.1);
    }
  }

  // ---------------------------------------------------------------- caps per cycle

  function Delivered(cycle: seq<Delivery>, w: Window): nat {
    if cycle == [] then 0
    else
      var d := cycle[|cycle| - 1];
      Delivered(cycle[..|cycle| - 1], w) + if d.window == w && !d.skipped then 1 else 0
  }

  lemma DeliveredOneMore(cycle: seq<Delivery>, d: Delivery, w: Window)
    ensures Delivered(cycle + [d], w) == Delivered(cycle, w) + if d.window == w && !d.skipped then 1 else 0
  {
  }

  predicate CapsKept(q: Queue) {
    forall w :: w != NONE ==> Delivered(q.cycle, w) <= Cap(w)
  }

  predicate Counted(q: Queue) {
    && (forall w :: Count(q.fired, w) == Delivered(q.cycle, w) <= Cap(w))
    && (q.gap.Some? ==> Count(q.fired, q.gap.value) < Cap(q.gap.value))
  }

  /** A claim that hands something out while an AFTER tick's execFn runs. */
  predicate ClaimInAfterTick(q: Queue, op: Op) {
    op.Claim? && q.gap == Some(AFTER) && Claimable(q).Some?
  }

  predicate NoClaimInAfterTick(q: Queue, h: History) {
    h != [] ==>
      NoClaimInAfterTick(q, h[..|h| - 1]) && !ClaimInAfterTick(Last(q, h[..|h| - 1]), h[|h| - 1].0)
  }

  lemma CountedStep(fireWindow: int, q: Queue, op: Op, q': Queue)
    requires Counted(q) && Next(fireWindow, q, op, q') && !ClaimInAfterTick(q, op)
    ensures Counted(q')
  {
  }

  lemma {:induction false} CountedReached(fireWindow: int, h: History)
    requires IsHistory(fireWindow, EMPTY, h) && NoClaimInAfterTick(EMPTY, h)
    ensures Counted(Last(EMPTY, h))
  {
    if h != [] {
      var t, x := h[..|h| - 1], h[|h| - 1];
      CountedReached(fireWindow, t);
      CountedStep(fireWindow, Last(EMPTY, t), x.0, x.1);
    }
  }

  /** Since the last clear: at most 2 FRONTRUN, 2 LAST_MINUTE and 1 AFTER
      deliveries that were not skipped, ticks and claims together. */
  lemma CapsHold(fireWindow: int, h: History)
    requires IsHistory(fireWindow, EMPTY, h) && NoClaimInAfterTick(EMPTY, h)
    ensures CapsKept(Last(EMPTY, h))
  {
    CountedReached(fireWindow, h);
  }

  /** A claim counts at once; so does the tick's own delivery when it returns. */
  lemma ClaimThenReturnCount(q: Queue)
    requires Counted(q) && ClaimInAfterTick(q, Claim) && |q.tick| < |q.offered|
    ensures Delivered(ReturnStep(ClaimStep(q), false).cycle, AFTER) == 2
  {
    hide Filter;
    var i, w := Claimable(q).value, q.gap.value;
    DeliveredOneMore(q.cycle, Delivery(i, AFTER, false), AFTER);
    DeliveredOneMore(ClaimStep(q).cycle, Delivery(q.offered[|q.tick|], AFTER, false), AFTER);
  }

  /** The condition is exact: any claim it excludes can end in two AFTER deliveries. */
  lemma ClaimInAfterTickBreaksCap(fireWindow: int, q: Queue)
    requires R.Inv(q) && Counted(q) && ClaimInAfterTick(q, Claim)
    ensures exists h: History :: IsHistory(fireWindow, q, h) && h != [] && h[0].0 == Claim && !CapsKept(Last(q, h))
  {
    hide Filter, Delivered, R.WellFormed, Counted;
    var q1 := ClaimStep(q);
    var q2 := ReturnStep(q1, false);
    ClaimThenReturnCount(q);
    Extend(fireWindow, q, [], Claim, q1);
    Extend(fireWindow, q, [(Claim, q1)], Return(false), q2);
    assert !CapsKept(q2);
  }

  // ---------------------------------------------------------------- nothing twice

  /** A claim of an intent the running tick still has in its copy. */
  predicate ClaimFromTick(q: Queue, op: Op) {
    && op.Claim?
    && q.gap.Some?
    && |q.tick| < |q.offered|
    && Claimable(q).Some?
    && Claimable(q).value in q.offered[|q.tick| + 1..]
  }

  predicate NoClaimFromTick(q: Queue, h: History) {
    h != [] ==>
      NoClaimFromTick(q, h[..|h| - 1]) && !ClaimFromTick(Last(q, h[..|h| - 1]), h[|h| - 1].0)
  }

  predicate HasId(s: seq<Intent>, id: nat) {
    exists i :: i in s && i.id == id
  }

  predicate NoneTwice(q: Queue) {
    && DistinctIds(q.started)
    && DistinctIds(q.offered)
    && (q.gap.Some? ==> forall j :: |q.tick| < j < |q.offered| ==> !HasId(q.started, q.offered[j].id))
    && (forall i, j :: 0 <= i < |q.offered| && 0 <= j < |q.intents| && q.offered[i].id == q.intents[j].id
                       ==> q.offered[i] == q.intents[j])
  }

  lemma TakeOnce(s: seq<Intent>, i: Intent)
    requires DistinctIds(s) && !HasId(s, i.id)
    ensures DistinctIds(s + [i])
    ensures forall id :: HasId(s + [i], id) <==> HasId(s, id) || id == i.id
  {
  }

  lemma PendingNotStarted(q: Queue, i: Intent)
    requires R.WellFormed(q) && i in q.intents
    ensures !HasId(q.started, i.id)
  {
  }

  lemma BeginTickNoneTwice(fireWindow: int, q: Queue, w: Window, until: int, now: int)
    requires R.Inv(q) && NoneTwice(q) && q.gap.None?
    ensures NoneTwice(BeginTickStep(fireWindow, q, w, until, now))
  {
    var q1 := q.(intents := Filter(q.intents, Unexpired(now)), tick := []);
    FilterKeeps(q.intents, Unexpired(now));
    R.EligibleInQueue(q1, w);
    var eligible := if Open(fireWindow, q1, w, until) then Filter(q1.intents, EligibleFor(q1.status, w)) else [];
    forall j | 0 <= j < |eligible|
      ensures eligible[j] in q1.intents && !HasId(q.started, eligible[j].id)
    {
      assert eligible[j] in eligible;
      PendingNotStarted(q1, eligible[j]);
    }
    if eligible != [] {
      TakeOnce(q.started, eligible[0]);
      FilterKeeps(q1.intents, OtherThan(eligible[0]));
      SameObjects(q1.intents, eligible, BeginTickStep(fireWindow, q, w, until, now).intents);
    }
  }

  /** Distinct ids identify the elements of a queue. */
  lemma SameObjects(s: seq<Intent>, a: seq<Intent>, b: seq<Intent>)
    requires DistinctIds(s)
    requires forall x :: x in a ==> x in s
    requires forall x :: x in b ==> x in s
    ensures forall i, j :: 0 <= i < |a| && 0 <= j < |b| && a[i].id == b[j].id ==> a[i] == b[j]
  {
    forall i, j | 0 <= i < |a| && 0 <= j < |b| && a[i].id == b[j].id
      ensures a[i] == b[j]
    {
      assert a[i] in a && b[j] in b;
    }
  }

  lemma ReturnNoneTwice(q: Queue, skipped: bool)
    requires R.Inv(q) && NoneTwice(q) && q.gap.Some?
    ensures NoneTwice(ReturnStep(q, skipped))
  {
    if skipped && |q.tick| + 1 < |q.offered| {
      var i := q.offered[|q.tick| + 1];
      TakeOnce(q.started, i);
      FilterKeeps(q.intents, OtherThan(i));
      OfferedMatches(q.offered, q.intents, ReturnStep(q, skipped).intents);
    }
  }

  lemma OfferedMatches(offered: seq<Intent>, s: seq<Intent>, t: seq<Intent>)
    requires forall i, j :: 0 <= i < |offered| && 0 <= j < |s| && offered[i].id == s[j].id ==> offered[i] == s[j]
    requires forall x :: x in t ==> x in s
    ensures forall i, j :: 0 <= i < |offered| && 0 <= j < |t| && offered[i].id == t[j].id ==> offered[i] == t[j]
  {
    forall i, j | 0 <= i < |offered| && 0 <= j < |t| && offered[i].id == t[j].id
      ensures offered[i] == t[j]
    {
      assert t[j] in t && t[j] in s;
    }
  }

  lemma ClaimNoneTwice(q: Queue)
    requires R.Inv(q) && NoneTwice(q) && !ClaimFromTick(q, Claim)
    ensures NoneTwice(ClaimStep(q))
  {
    R.EligibleInQueue(q, AFTER);
    if Claimable(q).Some? {
      var i := Claimable(q).value;
      assert i in q.intents;
      PendingNotStarted(q, i);
      TakeOnce(q.started, i);
      FilterKeeps(q.intents, OtherThan(i));
      OfferedMatches(q.offered, q.intents, ClaimStep(q).intents);
      var k :| 0 <= k < |q.intents| && q.intents[k] == i;
      forall j | q.gap.Some? && |q.tick| < j < |q.offered|
        ensures q.offered[j].id != i.id
      {
        assert q.offered[j] in q.offered[|q.tick| + 1..];
      }
    }
  }

  lemma EnqueueNoneTwice(q: Queue, i: Intent, q': Queue)
    requires R.Inv(q) && NoneTwice(q) && Next(0, q, Enqueue(i), q')
    ensures NoneTwice(q')
  {
    var ins := Insert(q, i);
    R.PermutationKeeps(ins, q'.intents);
    forall a, b | 0 <= a < |q.offered| && 0 <= b < |q'.intents| && q.offered[a].id == q'.intents[b].id
      ensures q.offered[a] == q'.intents[b]
    {
      assert q'.intents[b] in ins && q.offered[a] in q.offered;
    }
  }

  lemma NoneTwiceStep(fireWindow: int, q: Queue, op: Op, q': Queue)
    requires R.Inv(q) && NoneTwice(q) && Next(fireWindow, q, op, q') && !ClaimFromTick(q, op)
    ensures NoneTwice(q')
  {
    match op {
      case Enqueue(i) => EnqueueNoneTwice(q, i, q');
      case BeginTick(w, until, now) => BeginTickNoneTwice(fireWindow, q, w, until, now);
      case Return(skipped) => ReturnNoneTwice(q, skipped);
      case Claim => ClaimNoneTwice(q);
      case CancelBySymbol(symbol) =>
        FilterKeeps(q.intents, NotPendingSymbol(q.status, symbol));
        OfferedMatches(q.offered, q.intents, q'.intents);
      case ClearAfterSettlement =>
    }
  }

  lemma {:induction false} NoneTwiceReached(fireWindow: int, h: History)
    requires IsHistory(fireWindow, EMPTY, h) && NoClaimFromTick(EMPTY, h)
    ensures NoneTwice(Last(EMPTY, h))
  {
    if h != [] {
      var t, x := h[..|h| - 1], h[|h| - 1];
      NoneTwiceReached(fireWindow, t);
      R.InvReached(fireWindow, EMPTY, t);
      NoneTwiceStep(fireWindow, Last(EMPTY, t), x.0, x.1);
    }
  }

  /** No intent is ever handed out twice, over all cycles. */
  lemma NoIntentDeliveredTwice(fireWindow: int, h: History)
    requires IsHistory(fireWindow, EMPTY, h) && NoClaimFromTick(EMPTY, h)
    ensures DistinctIds(Last(EMPTY, h).started)
  {
    NoneTwiceReached(fireWindow, h);
  }

  /** Where a tick stands after its copy's first n intents were skipped. */
  predicate SkippedTo(q: Queue, n: nat, q': Queue)
    requires |q.tick| <= n < |q.offered|
  {
    && R.Inv(q') && q'.gap == q.gap && q'.gap.Some? && q'.offered == q.offered && |q'.tick| == n
    && q'.started == q.started + q.offered[|q.tick| + 1..n + 1]
  }

  lemma SkipOne(q: Queue, n: nat, before: Queue)
    requires |q.tick| < n < |q.offered| && SkippedTo(q, n - 1, before)
    ensures SkippedTo(q, n, ReturnStep(before, true))
  {
    R.ReturnKeeps(before, true);
    assert q.offered[|q.tick| + 1..n + 1] == q.offered[|q.tick| + 1..n] + [q.offered[n]];
  }

  lemma {:induction false} SkipTo(fireWindow: int, q: Queue, n: nat) returns (h: History)
    requires R.Inv(q) && q.gap.Some? && |q.tick| <= n < |q.offered|
    ensures IsHistory(fireWindow, q, h) && SkippedTo(q, n, Last(q, h))
    decreases n
  {
    if n == |q.tick| {
      h := [];
    } else {
      var t := SkipTo(fireWindow, q, n - 1);
      var after := ReturnStep(Last(q, t), true);
      SkipOne(q, n, Last(q, t));
      Extend(fireWindow, q, t, Return(true), after);
      h := t + [(Return(true), after)];
    }
  }

  /** The condition is exact: any claim it excludes can end in that intent being
      handed out a second time, by the tick that still has it in its copy. */
  lemma ClaimFromTickDeliversTwice(fireWindow: int, q: Queue)
    requires R.Inv(q) && ClaimFromTick(q, Claim)
    ensures exists h: History :: IsHistory(fireWindow, ClaimStep(q), h) && !DistinctIds(Last(ClaimStep(q), h).started)
  {
    var i, q1 := Claimable(q).value, ClaimStep(q);
    R.ClaimKeeps(q);
    var rest := q.offered[|q.tick| + 1..];
    var m :| 0 <= m < |rest| && rest[m] == i;
    var n := |q.tick| + 1 + m;
    var h := SkipTo(fireWindow, q1, n);
    var started := Last(q1, h).started;
    assert started == q.started + [i] + q.offered[|q.tick| + 1..n + 1];
    assert started[|q.started|] == i && started[|started| - 1] == i;
  }

  // ---------------------------------------------------------------- both conditions do occur

  lemma FilterTwo(a: Intent, b: Intent, keep: Intent -> bool)
    ensures Filter([a], keep) == if keep(a) then [a] else []
    ensures Filter([a, b], keep) == (if keep(a) then [a] else []) + (if keep(b) then [b] else [])
  {
    assert [a][..0] == [] && [a, b][..1] == [a];
  }

  /** A queue of two AFTER intents, the better one being executed by a tick. */
  predicate Overlapping(q: Queue, a: Intent, b: Intent) {
    && q.intents == [b] && b.id in q.status && q.status[b.id] == PENDING
    && q.gap == Some(AFTER) && q.offered == [a, b] && q.tick == []
    && q.fired == map[] && q.cycle == []
  }

  function BothQueued(a: Intent, b: Intent): Queue {
    EMPTY.(intents := [a, b], status := map[a.id := PENDING, b.id := PENDING])
  }

  lemma BothEnqueued(fireWindow: int, a: Intent, b: Intent) returns (h: History)
    requires a.id != b.id && a.symbol != b.symbol && a.confidence >= b.confidence
    ensures IsHistory(fireWindow, EMPTY, h) && Last(EMPTY, h) == BothQueued(a, b)
  {
    var q1 := EMPTY.(intents := [a], status := map[a.id := PENDING]);
    assert Insert(EMPTY, a) == [a];
    assert Insert(q1, b) == [a, b] by {
      assert IndexOfPending([a][1..], q1.status, b.symbol) == 0;
    }
    Extend(fireWindow, EMPTY, [], Enqueue(a), q1);
    Extend(fireWindow, EMPTY, [(Enqueue(a), q1)], Enqueue(b), BothQueued(a, b));
    h := [(Enqueue(a), q1)] + [(Enqueue(b), BothQueued(a, b))];
  }

  lemma TickTakesBest(fireWindow: int, a: Intent, b: Intent, until: int, now: int)
    requires a.id != b.id && a.target == AfterMode == b.target && now <= a.expiresAt && now <= b.expiresAt
    ensures Overlapping(BeginTickStep(fireWindow, BothQueued(a, b), AFTER, until, now), a, b)
  {
    FilterTwo(a, b, Unexpired(now));
    FilterTwo(a, b, EligibleFor(BothQueued(a, b).status, AFTER));
    FilterTwo(a, b, OtherThan(a));
  }

  lemma OverlapReached(fireWindow: int, a: Intent, b: Intent, until: int, now: int) returns (h: History)
    requires a.id != b.id && a.symbol != b.symbol && a.confidence >= b.confidence
    requires a.target == AfterMode == b.target && now <= a.expiresAt && now <= b.expiresAt
    ensures IsHistory(fireWindow, EMPTY, h) && Overlapping(Last(EMPTY, h), a, b)
  {
    hide IsHistory, Overlapping, BeginTickStep;
    var t := BothEnqueued(fireWindow, a, b);
    var q := BeginTickStep(fireWindow, BothQueued(a, b), AFTER, until, now);
    TickTakesBest(fireWindow, a, b, until, now);
    Extend(fireWindow, EMPTY, t, BeginTick(AFTER, until, now), q);
    h := t + [(BeginTick(AFTER, until, now), q)];
  }

  /** AfterTrigger's claim can then take what the tick still has in its copy. */
  lemma OverlapIsExcluded(q: Queue, a: Intent, b: Intent)
    requires Overlapping(q, a, b) && b.target == AfterMode
    ensures Counted(q) && ClaimInAfterTick(q, Claim) && ClaimFromTick(q, Claim)
  {
    FilterTwo(b, b, EligibleFor(q.status, AFTER));
    assert q.offered[1..] == [b];
  }

  lemma CapFailsAfter(fireWindow: int, h: History)
    requires IsHistory(fireWindow, EMPTY, h) && Counted(Last(EMPTY, h)) && ClaimInAfterTick(Last(EMPTY, h), Claim)
    ensures exists h: History :: IsHistory(fireWindow, EMPTY, h) && !CapsKept(Last(EMPTY, h))
  {
    hide IsHistory, CapsKept, Counted, R.Inv, ClaimInAfterTick, ClaimStep;
    var q := Last(EMPTY, h);
    EmptyKeeps();
    R.InvReached(fireWindow, EMPTY, h);
    ClaimInAfterTickBreaksCap(fireWindow, q);
    var t: History :| IsHistory(fireWindow, q, t) && t != [] && t[0].0 == Claim && !CapsKept(Last(q, t));
    Join(fireWindow, EMPTY, h, t);
  }

  lemma UniquenessFailsAfter(fireWindow: int, h: History)
    requires IsHistory(fireWindow, EMPTY, h) && ClaimFromTick(Last(EMPTY, h), Claim)
    ensures exists h: History :: IsHistory(fireWindow, EMPTY, h) && !DistinctIds(Last(EMPTY, h).started)
  {
    hide IsHistory, DistinctIds, R.Inv, ClaimFromTick, ClaimStep;
    var q := Last(EMPTY, h);
    EmptyKeeps();
    R.InvReached(fireWindow, EMPTY, h);
    ClaimFromTickDeliversTwice(fireWindow, q);
    var t: History :| IsHistory(fireWindow, ClaimStep(q), t) && !DistinctIds(Last(ClaimStep(q), t).started);
    Extend(fireWindow, EMPTY, h, Claim, ClaimStep(q));
    Join(fireWindow, EMPTY, h + [(Claim, ClaimStep(q))], t);
  }

  lemma EmptyKeeps()
    ensures R.Inv(EMPTY)
  {
  }

  /** Whatever the settings, some history from the empty queue ends with two AFTER
      deliveries in one cycle, and some with one intent handed out twice. */
  lemma CapAndUniquenessCanFail(fireWindow: int)
    ensures exists h: History :: IsHistory(fireWindow, EMPTY, h) && !CapsKept(Last(EMPTY, h))
    ensures exists h: History :: IsHistory(fireWindow, EMPTY, h) && !DistinctIds(Last(EMPTY, h).started)
  {
    hide IsHistory, CapsKept, DistinctIds, Counted, ClaimInAfterTick, ClaimFromTick, Overlapping;
    var a, b := Intent(0, "A", 80, AfterMode, 0), Intent(1, "B", 70, AfterMode, 0);
    var h := OverlapReached(fireWindow, a, b, 0, 0);
    OverlapIsExcluded(Last(EMPTY, h), a, b);
    CapFailsAfter(fireWindow, h);
    UniquenessFailsAfter(fireWindow, h);
  }
}
