/** What holds of the intent queue whenever its lock is free. */
module QueueRuns {
  import opened Options
  import opened Windows
  import opened QueueSpec

  /** Sorted by confidence, pending intents only, at most one per symbol, and
      nothing that was ever handed out. */
  predicate WellFormed(q: Queue) {
    && Ranked(q.intents)
    && OnePerSymbol(q.intents)
    && DistinctIds(q.intents)
    && (forall i :: i in q.intents ==> i.id in q.status && q.status[i.id] == PENDING)
    && (forall i :: i in q.started ==> i.id in q.status && q.status[i.id] == FIRED)
  }

  /** An executing tick works through its own copy of the eligible intents. */
  predicate TickSane(q: Queue) {
    && (forall i :: i in q.offered ==> i.id in q.status)
    && (q.gap.Some? ==> |q.tick| < |q.offered|)
  }

  predicate Inv(q: Queue) {
    WellFormed(q) && TickSane(q)
  }

  lemma TakeKeeps(q: Queue, i: Intent)
    requires WellFormed(q) && i.id in q.status
    requires forall x :: x in q.offered ==> x.id in q.status
    ensures WellFormed(Take(q, i))
    ensures forall x :: x in q.offered ==> x.id in Take(q, i).status
  {
    FilterKeeps(q.intents, OtherThan(i));
  }

  lemma EligibleInQueue(q: Queue, w: Window)
    requires WellFormed(q)
    ensures var e := Filter(q.intents, EligibleFor(q.status, w));
            && Ranked(e) && DistinctIds(e)
            && (forall i :: i in e <==> i in q.intents && Ready(w, i.target))
  {
    FilterKeeps(q.intents, EligibleFor(q.status, w));
  }

  lemma {:induction false} DistinctCountedOnce(s: seq<Intent>, x: Intent)
    requires DistinctIds(s)
    ensures multiset(s)[x] <= 1
    ensures x in s <==> multiset(s)[x] == 1
  {
    if s != [] {
      var t := s[..|s| - 1];
      assert s == t + [s[|s| - 1]];
      DistinctCountedOnce(t, x);
    }
  }

  lemma EqualCountedTwice(s: seq<Intent>, a: int, b: int)
    requires 0 <= a < b < |s|
    ensures s[a] == s[b] ==> multiset(s)[s[a]] >= 2
  {
    assert s == s[..b] + ([s[b]] + s[b + 1..]);
    assert multiset(s) == multiset(s[..b]) + multiset{s[b]} + multiset(s[b + 1..]);
    assert s[..b][a] == s[a];
  }

  /** A permutation of a queue with one intent per symbol is such a queue. */
  lemma PermutationKeeps(s: seq<Intent>, t: seq<Intent>)
    requires multiset(s) == multiset(t) && OnePerSymbol(s) && DistinctIds(s)
    ensures OnePerSymbol(t) && DistinctIds(t)
    ensures forall x :: x in t <==> x in s
  {
    forall x
      ensures x in t <==> x in s
    {
      assert x in t <==> x in multiset(t);
      assert x in s <==> x in multiset(s);
    }
    forall a, b | 0 <= a < b < |t|
      ensures t[a].symbol != t[b].symbol && t[a].id != t[b].id
    {
      assert t[a] in s && t[b] in s;
      var x :| 0 <= x < |s| && s[x] == t[a];
      var y :| 0 <= y < |s| && s[y] == t[b];
      EqualCountedTwice(t, a, b);
      DistinctCountedOnce(s, t[a]);
      assert x != y;
    }
  }

  lemma EnqueueKeeps(q: Queue, i: Intent, q': Queue)
    requires Inv(q) && Next(0, q, Enqueue(i), q')
    ensures Inv(q')
  {
    PermutationKeeps(Insert(q, i), q'.intents);
  }

  lemma BeginTickKeeps(fireWindow: int, q: Queue, w: Window, until: int, now: int)
    requires Inv(q) && q.gap.None?
    ensures Inv(BeginTickStep(fireWindow, q, w, until, now))
    ensures Ranked(BeginTickStep(fireWindow, q, w, until, now).offered)
  {
    var q1 := q.(intents := Filter(q.intents, Unexpired(now)), tick := []);
    FilterKeeps(q.intents, Unexpired(now));
    EligibleInQueue(q1, w);
    var eligible := if Open(fireWindow, q1, w, until) then Filter(q1.intents, EligibleFor(q1.status, w)) else [];
    if eligible != [] {
      assert eligible[0] in eligible;
      TakeKeeps(q1.(offered := eligible, gap := Some(w)), eligible[0]);
    }
  }

  lemma ReturnKeeps(q: Queue, skipped: bool)
    requires Inv(q) && q.gap.Some?
    ensures Inv(ReturnStep(q, skipped))
  {
    if skipped && |q.tick| + 1 < |q.offered| {
      var d := Delivery(q.offered[|q.tick|], q.gap.value, true);
      TakeKeeps(q.(tick := q.tick + [d], cycle := q.cycle + [d]), q.offered[|q.tick| + 1]);
    }
  }

  lemma ClaimKeeps(q: Queue)
    requires Inv(q)
    ensures Inv(ClaimStep(q))
  {
    EligibleInQueue(q, AFTER);
    if Claimable(q).Some? {
      assert Claimable(q).value in q.intents;
      TakeKeeps(q, Claimable(q).value);
    }
  }

  lemma StepKeeps(fireWindow: int, q: Queue, op: Op, q': Queue)
    requires Inv(q) && Next(fireWindow, q, op, q')
    ensures Inv(q')
  {
    match op {
      case Enqueue(i) => EnqueueKeeps(q, i, q');
      case BeginTick(w, until, now) => BeginTickKeeps(fireWindow, q, w, until, now);
      case Return(skipped) => ReturnKeeps(q, skipped);
      case Claim => ClaimKeeps(q);
      case CancelBySymbol(symbol) => FilterKeeps(q.intents, NotPendingSymbol(q.status, symbol));
      case ClearAfterSettlement =>
    }
  }

  lemma {:induction false} InvReached(fireWindow: int, q: Queue, h: History)
    requires Inv(q) && IsHistory(fireWindow, q, h)
    ensures Inv(Last(q, h))
  {
    if h != [] {
      var t, x := h[..|h| - 1], h[|h| - 1];
      InvReached(fireWindow, q, t);
      StepKeeps(fireWindow, Last(q, t), x.0, x.1);
    }
  }

  /** Whatever interleaves, inside ticks or between them: whenever the lock is free
      the queue is ranked, pending, one per symbol, never refilled with a fired
      intent. */
  lemma QueueAlwaysWellFormed(fireWindow: int, h: History)
    requires IsHistory(fireWindow, EMPTY, h)
    ensures var q := Last(EMPTY, h);
            WellFormed(q) && forall i :: i in q.started ==> i !in q.intents
  {
    InvReached(fireWindow, EMPTY, h);
  }
}
