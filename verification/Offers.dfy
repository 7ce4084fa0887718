/** What a tick and a claim hand out: exactly the intents that are due. */
module Offers {
  import opened Options
  import opened Windows
  import opened QueueSpec
  import R = QueueRuns
  import opened Deliveries

  /** Deliveries that a window still admits in this cycle. */
  predicate RoomFor(q: Queue, w: Window) {
    Delivered(q.cycle, w) < if w == AFTER then 1 else 2
  }

  predicate Best(i: Intent, s: seq<Intent>) {
    i in s && forall x :: x in s ==> i.confidence >= x.confidence
  }

  /** A tick offers an intent exactly when it is queued, unexpired and ready for the
      window, the window admits another delivery and, before settlement, the fire
      window is reached; it hands the best of them to execFn at once. */
  lemma TickOffersIff(fireWindow: int, q: Queue, w: Window, until: int, now: int, q': Queue)
    requires R.Inv(q) && Counted(q) && Next(fireWindow, q, BeginTick(w, until, now), q')
    ensures forall i :: i in q'.offered
                   <==> i in q.intents && now <= i.expiresAt && w != NONE && Ready(w, i.target)
                        && RoomFor(q, w) && (w == FRONTRUN ==> until <= fireWindow)
    ensures q'.offered == [] ==> q'.gap.None? && q'.started == q.started
    ensures q'.offered != [] ==> q'.gap == Some(w) && q'.tick == []
                                 && q'.started == q.started + [q'.offered[0]] && Best(q'.offered[0], q'.offered)
  {
    var q1 := q.(intents := Filter(q.intents, Unexpired(now)), tick := []);
    FilterKeeps(q.intents, Unexpired(now));
    R.EligibleInQueue(q1, w);
    hide Filter;
    assert Count(q.fired, w) == Delivered(q.cycle, w);
    if q'.offered != [] {
      assert q'.offered[0] in q'.offered;
    }
  }

  /** A claim hands out the best unfired AFTER-ready intent exactly when no AFTER
      delivery of the cycle was counted yet; a running tick's is not counted. */
  lemma ClaimTakesBestIff(q: Queue, q': Queue)
    requires R.Inv(q) && Counted(q) && q' == ClaimStep(q)
    ensures q' == q || exists i :: i in q.intents && q'.started == q.started + [i]
    ensures forall i :: i in q.intents && Ready(AFTER, i.target) && RoomFor(q, AFTER) ==>
                          q' != q && q'.started[|q.started|].confidence >= i.confidence
    ensures q' != q ==> RoomFor(q, AFTER) && Ready(AFTER, q'.started[|q.started|].target)
  {
    R.EligibleInQueue(q, AFTER);
    hide Filter;
    assert Count(q.fired, AFTER) == Delivered(q.cycle, AFTER);
    var e := Filter(q.intents, EligibleFor(q.status, AFTER));
    if e != [] {
      assert e[0] in e;
    }
  }

  // ---------------------------------------------------------------- the caps are reached

  /** Between ticks with nothing queued. */
  predicate Resting(q: Queue) {
    q.intents == [] && q.gap.None?
  }

  /** The queue while a tick executes its only intent, and once it has. */
  function Executing(q: Queue, i: Intent, w: Window): Queue {
    q.(tick := [], offered := [i], gap := Some(w), intents := [], status := q.status[i.id := FIRED], started := q.started + [i])
  }

  function Executed(q: Queue, i: Intent, w: Window): Queue {
    var d := Delivery(i, w, false);
    Executing(q, i, w).(gap := None, tick := [d], cycle := q.cycle + [d], fired := q.fired[w := Count(q.fired, w) + 1])
  }

  lemma TickTakesOnly(fireWindow: int, q: Queue, i: Intent, w: Window, until: int, now: int)
    requires Resting(q) && Counted(q) && RoomFor(q, w)
    requires w != NONE && Ready(w, i.target) && now <= i.expiresAt && until <= fireWindow
    ensures var q1 := q.(intents := [i], status := q.status[i.id := PENDING]);
            BeginTickStep(fireWindow, q1, w, until, now) == Executing(q, i, w)
  {
    var q1 := q.(intents := [i], status := q.status[i.id := PENDING]);
    FilterTwo(i, i, Unexpired(now));
    FilterTwo(i, i, EligibleFor(q1.status, w));
    FilterTwo(i, i, OtherThan(i));
    assert q1.status[i.id := FIRED] == q.status[i.id := FIRED];
    hide Filter, Delivered;
  }

  lemma ExecutedDelivers(q: Queue, i: Intent, w: Window, x: Window)
    ensures Delivered(Executed(q, i, w).cycle, x) == Delivered(q.cycle, x) + if x == w then 1 else 0
  {
    hide Delivered;
    DeliveredOneMore(q.cycle, Delivery(i, w, false), x);
  }

  lemma ExecutedCounts(q: Queue, i: Intent, w: Window)
    requires Resting(q) && Counted(q) && RoomFor(q, w)
    ensures Counted(Executed(q, i, w)) && Resting(Executed(q, i, w))
    ensures forall x :: Delivered(Executed(q, i, w).cycle, x) == Delivered(q.cycle, x) + if x == w then 1 else 0
  {
    hide Delivered;
    var e := Executed(q, i, w);
    forall x
      ensures Delivered(e.cycle, x) == Delivered(q.cycle, x) + if x == w then 1 else 0
      ensures Count(e.fired, x) == Delivered(e.cycle, x) <= Cap(x)
    {
      ExecutedDelivers(q, i, w, x);
      assert Count(q.fired, x) == Delivered(q.cycle, x);
      assert Count(q.fired, w) == Delivered(q.cycle, w);
    }
  }

  lemma EnqueueFirst(fireWindow: int, q: Queue, i: Intent)
    requires Resting(q) && i.id !in q.status
    ensures Next(fireWindow, q, Enqueue(i), q.(intents := [i], status := q.status[i.id := PENDING]))
  {
    assert Insert(q, i) == [i];
    hide Filter;
  }

  lemma ReturnLast(fireWindow: int, q: Queue, i: Intent, w: Window)
    ensures Next(fireWindow, Executing(q, i, w), Return(false), Executed(q, i, w))
  {
    hide Filter, Insert, BeginTickStep, ClaimStep;
    assert [] + [Delivery(i, w, false)] == [Delivery(i, w, false)];
  }

  lemma TickFirst(fireWindow: int, q: Queue, i: Intent, w: Window, until: int, now: int)
    requires Resting(q) && Counted(q) && RoomFor(q, w)
    requires w != NONE && Ready(w, i.target) && now <= i.expiresAt && until <= fireWindow
    ensures Next(fireWindow, q.(intents := [i], status := q.status[i.id := PENDING]), BeginTick(w, until, now), Executing(q, i, w))
  {
    TickTakesOnly(fireWindow, q, i, w, until, now);
    hide BeginTickStep, Counted, RoomFor, Executing;
  }

  /** One intent enqueued, taken up by a tick, and executed. */
  lemma OneDelivery(fireWindow: int, q: Queue, i: Intent, w: Window, until: int, now: int) returns (h: History)
    requires Resting(q) && i.id !in q.status && Counted(q) && RoomFor(q, w)
    requires w != NONE && Ready(w, i.target) && now <= i.expiresAt && until <= fireWindow
    ensures IsHistory(fireWindow, q, h) && Last(q, h) == Executed(q, i, w)
  {
    hide *;
    var q1, q2, q3 := q.(intents := [i], status := q.status[i.id := PENDING]), Executing(q, i, w), Executed(q, i, w);
    EnqueueFirst(fireWindow, q, i);
    TickFirst(fireWindow, q, i, w, until, now);
    ReturnLast(fireWindow, q, i, w);
    h := ThreeSteps(fireWindow, q, Enqueue(i), q1, BeginTick(w, until, now), q2, Return(false), q3);
  }

  lemma ThreeSteps(fireWindow: int, q: Queue, a: Op, q1: Queue, b: Op, q2: Queue, c: Op, q3: Queue) returns (h: History)
    requires Next(fireWindow, q, a, q1) && Next(fireWindow, q1, b, q2) && Next(fireWindow, q2, c, q3)
    ensures IsHistory(fireWindow, q, h) && Last(q, h) == q3
  {
    hide Next;
    Extend(fireWindow, q, [], a, q1);
    Extend(fireWindow, q, [(a, q1)], b, q2);
    Extend(fireWindow, q, [(a, q1)] + [(b, q2)], c, q3);
    h := [(a, q1)] + [(b, q2)] + [(c, q3)];
  }

  /** The n-th intent, of a kind that is ready in window w. */
  function IntentFor(n: nat, w: Window): Intent {
    Intent(n, "S", 0, if w == AFTER then AfterMode else FrontrunMode, 0)
  }

  predicate WithinCaps(ws: seq<Window>) {
    forall w :: multiset(ws)[w] <= if w == AFTER then 1 else 2
  }

  /** Every number of deliveries within the caps, in every order of windows, is
      reached by some history of one cycle. */
  lemma {:induction false} CapsReached(fireWindow: int, ws: seq<Window>) returns (h: History)
    requires NONE !in ws && WithinCaps(ws)
    ensures IsHistory(fireWindow, EMPTY, h) && Counted(Last(EMPTY, h)) && Resting(Last(EMPTY, h))
    ensures forall w :: Delivered(Last(EMPTY, h).cycle, w) == multiset(ws)[w]
    ensures forall id :: id in Last(EMPTY, h).status ==> id < |ws|
  {
    if ws == [] {
      h := [];
    } else {
      hide IsHistory, Counted, Delivered, WithinCaps;
      var n, w := |ws| - 1, ws[|ws| - 1];
      OneWindowMore(ws[..n], w, ws);
      var t := CapsReached(fireWindow, ws[..n]);
      var q, i := Last(EMPTY, t), IntentFor(n, w);
      var u := OneDelivery(fireWindow, q, i, w, fireWindow, 0);
      ExecutedCounts(q, i, w);
      Join(fireWindow, EMPTY, t, u);
      h := t + u;
    }
  }

  lemma OneWindowMore(vs: seq<Window>, w: Window, ws: seq<Window>)
    requires ws == vs + [w] && WithinCaps(ws) && NONE !in ws
    ensures forall x :: multiset(ws)[x] == multiset(vs)[x] + if x == w then 1 else 0
    ensures WithinCaps(vs) && NONE !in vs && w != NONE
  {
    assert w in ws;
  }

  /** In particular two FRONTRUN, two LAST_MINUTE and one AFTER delivery. */
  lemma AllCapsReached(fireWindow: int)
    ensures exists h: History :: IsHistory(fireWindow, EMPTY, h) && Delivered(Last(EMPTY, h).cycle, FRONTRUN) == 2
                                 && Delivered(Last(EMPTY, h).cycle, LAST_MINUTE) == 2 && Delivered(Last(EMPTY, h).cycle, AFTER) == 1
  {
    hide IsHistory;
    var ws := [FRONTRUN, FRONTRUN, LAST_MINUTE, LAST_MINUTE, AFTER];
    assert multiset(ws) == multiset{FRONTRUN, FRONTRUN, LAST_MINUTE, LAST_MINUTE, AFTER};
    var h := CapsReached(fireWindow, ws);
  }

  // ---------------------------------------------------------------- what is queued

  /** Enqueueing replaces the symbol's intent and touches no other. */
  lemma EnqueueReplaces(q: Queue, i: Intent, q': Queue)
    requires R.Inv(q) && Next(0, q, Enqueue(i), q')
    ensures forall x :: x in q'.intents <==> x == i || (x in q.intents && x.symbol != i.symbol)
    ensures q'.offered == q.offered && q'.fired == q.fired && q'.cycle == q.cycle
  {
    var ins := Insert(q, i);
    R.PermutationKeeps(ins, q'.intents);
    var k := IndexOfPending(q.intents, q.status, i.symbol);
    forall x
      ensures x in ins <==> x == i || (x in q.intents && x.symbol != i.symbol)
    {
      InsertHolds(q.intents, i, k, ins, x);
    }
  }

  lemma InsertHolds(s: seq<Intent>, i: Intent, k: nat, ins: seq<Intent>, x: Intent)
    requires OnePerSymbol(s) && k <= |s| && ins == if k < |s| then s[k := i] else s + [i]
    requires k < |s| ==> s[k].symbol == i.symbol
    requires forall j :: 0 <= j < k ==> s[j].symbol != i.symbol
    ensures x in ins <==> x == i || (x in s && x.symbol != i.symbol)
  {
    if x in s {
      var j :| 0 <= j < |s| && s[j] == x;
      if j != k {
        assert ins[j] == x;
      }
    }
    if k < |s| {
      assert ins[k] == i;
    } else {
      assert ins[|s|] == i;
    }
  }

  /** Cancelling removes the symbol's intent and no other; a clear removes all and
      makes room in every window. */
  lemma CancelRemoves(q: Queue, symbol: string, q': Queue)
    requires R.Inv(q) && Next(0, q, CancelBySymbol(symbol), q')
    ensures forall x :: x in q'.intents <==> x in q.intents && x.symbol != symbol
  {
    FilterMembers(q.intents, NotPendingSymbol(q.status, symbol));
  }

  lemma ClearMakesRoom(q: Queue, q': Queue)
    requires Next(0, q, ClearAfterSettlement, q')
    ensures q'.intents == [] && forall w :: w in {FRONTRUN, LAST_MINUTE, AFTER} ==> RoomFor(q', w) && Count(q'.fired, w) == 0
  {
  }
}
