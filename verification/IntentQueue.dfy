/** The queue object of internal/intent/queue.go and the scheduler tick that
    drives it.  Each lock-held section is proved to be one step of QueueSpec;
    what other goroutines do while a tick's execFn runs is an argument of Tick. */
module IntentQueueImpl {
  import opened Options
  import opened Windows
  import opened QueueSpec
  import R = QueueRuns
  import D = Deliveries
  import O = Offers

  /** While one execFn call runs: the operations others perform, then its answer. */
  datatype Round = Round(others: seq<Op>, skipped: bool)

  predicate FromOthers(op: Op) {
    op.Enqueue? || op.Claim? || op.CancelBySymbol? || op.ClearAfterSettlement?
  }

  method InsertByConfidence(r: seq<Intent>, x: Intent) returns (r': seq<Intent>)
    requires Ranked(r)
    ensures Ranked(r') && multiset(r') == multiset(r) + multiset{x}
  {
    var k := 0;
    while k < |r| && r[k].confidence >= x.confidence
      invariant k <= |r|
      invariant forall j :: 0 <= j < k ==> r[j].confidence >= x.confidence
    {
      k := k + 1;
    }
    assert multiset(r) == multiset(r[..k]) + multiset(r[k..]) by { assert r == r[..k] + r[k..]; }
    r' := r[..k] + [x] + r[k..];
  }

  method SortByConfidence(s: seq<Intent>) returns (r: seq<Intent>)
    ensures Ranked(r) && multiset(r) == multiset(s)
  {
    r := [];
    for i := 0 to |s|
      invariant Ranked(r) && multiset(r) == multiset(s[..i])
    {
      assert s[..i + 1] == s[..i] + [s[i]];
      r := InsertByConfidence(r, s[i]);
    }
    assert s[..|s|] == s;
  }

  class IntentQueue {
    const fireWindow: int
    var intents: seq<Intent>
    var status: map<nat, Status>
    var fired: map<Window, nat>
    ghost var gap: Option<Window>
    ghost var offered: seq<Intent>
    ghost var tick: seq<Delivery>
    ghost var cycle: seq<Delivery>
    ghost var started: seq<Intent>

    ghost function Abs(): Queue
      reads this
    {
      Queue(intents, status, fired, gap, offered, tick, cycle, started)
    }

    constructor (fireWindow: int)
      ensures this.fireWindow == fireWindow && Abs() == EMPTY
    {
      this.fireWindow := fireWindow;
      intents, status, fired := [], map[], map[];
      gap, offered, tick, cycle, started := None, [], [], [], [];
    }

    /** The in-place filter shared by expiry, removal and cancelling. */
    method KeepOnly(keep: Intent -> bool)
      modifies this`intents
      ensures intents == Filter(old(intents), keep)
    {
      var kept := [];
      for i := 0 to |intents|
        invariant intents == old(intents)
        invariant kept == Filter(intents[..i], keep)
      {
        assert intents[..i + 1][..i] == intents[..i];
        if keep(intents[i]) {
          kept := kept + [intents[i]];
        }
      }
      assert intents[..|intents|] == intents;
      intents := kept;
    }

    method BestEligible(w: Window) returns (eligible: seq<Intent>)
      ensures eligible == Filter(intents, EligibleFor(status, w))
    {
      eligible := [];
      for i := 0 to |intents|
        invariant eligible == Filter(intents[..i], EligibleFor(status, w))
      {
        var x := intents[i];
        assert intents[..i + 1][..i] == intents[..i];
        if x.id in status && status[x.id] == PENDING && Ready(w, x.target) {
          eligible := eligible + [x];
        }
      }
      assert intents[..|intents|] == intents;
    }

    method MarkFired(i: Intent)
      modifies this
      ensures Abs() == Take(old(Abs()), i)
    {
      status := status[i.id := FIRED];
      KeepOnly(OtherThan(i));
      started := started + [i];
    }

    method Enqueue(i: Intent)
      requires i.id !in status
      modifies this
      ensures Next(fireWindow, old(Abs()), Op.Enqueue(i), Abs())
    {
      var k := 0;
      while k < |intents| && !(intents[k].id in status && status[intents[k].id] == PENDING && intents[k].symbol == i.symbol)
        invariant k <= |intents|
        invariant IndexOfPending(intents, status, i.symbol) == k + IndexOfPending(intents[k..], status, i.symbol)
      {
        k := k + 1;
      }
      var inserted := if k < |intents| then intents[k := i] else intents + [i];
      assert inserted == Insert(Abs(), i);
      intents := SortByConfidence(inserted);
      status := status[i.id := PENDING];
    }

    method Claim() returns (claimed: Option<Intent>)
      modifies this
      ensures claimed == Claimable(old(Abs()))
      ensures Next(fireWindow, old(Abs()), Op.Claim, Abs())
    {
      if AFTER in fired && fired[AFTER] >= 1 {
        return None;
      }
      var eligible := BestEligible(AFTER);
      if eligible == [] {
        return None;
      }
      var i := eligible[0];
      MarkFired(i);
      fired := fired[AFTER := (if AFTER in fired then fired[AFTER] else 0) + 1];
      cycle := cycle + [Delivery(i, AFTER, false)];
      return Some(i);
    }

    method CancelBySymbol(symbol: string)
      modifies this
      ensures Next(fireWindow, old(Abs()), Op.CancelBySymbol(symbol), Abs())
    {
      KeepOnly(NotPendingSymbol(status, symbol));
    }

    method ClearAfterSettlement()
      modifies this
      ensures Next(fireWindow, old(Abs()), Op.ClearAfterSettlement, Abs())
    {
      intents, fired, cycle := [], map[], [];
    }

    /** Tick from taking the lock to releasing it around execFn, or to its end. */
    method BeginTick(w: Window, until: int, now: int) returns (eligible: seq<Intent>)
      requires gap.None?
      modifies this
      ensures Abs() == BeginTickStep(fireWindow, old(Abs()), w, until, now)
      ensures eligible == offered && tick == [] && gap == (if eligible == [] then None else Some(w))
    {
      hide Filter;
      KeepOnly(Unexpired(now));
      tick, offered := [], [];
      match w {
        case NONE =>
          return [];
        case FRONTRUN =>
          if (FRONTRUN in fired && fired[FRONTRUN] >= 2) || until > fireWindow {
            return [];
          }
        case LAST_MINUTE =>
          if LAST_MINUTE in fired && fired[LAST_MINUTE] >= 2 {
            return [];
          }
        case AFTER =>
          if AFTER in fired && fired[AFTER] >= 1 {
            return [];
          }
      }
      eligible := BestEligible(w);
      if eligible == [] {
        return;
      }
      offered, gap := eligible, Some(w);
      MarkFired(eligible[0]);
    }

    /** Tick from execFn's return to the next unlock, or to its end. */
    method AfterExec(eligible: seq<Intent>, index: nat, w: Window, skipped: bool) returns (running: bool)
      requires gap == Some(w) && offered == eligible && |tick| == index < |eligible|
      modifies this
      ensures Abs() == ReturnStep(old(Abs()), skipped)
      ensures running <==> gap.Some?
      ensures running ==> gap == Some(w) && offered == eligible && |tick| == index + 1 < |eligible|
    {
      tick := tick + [Delivery(eligible[index], w, skipped)];
      cycle := cycle + [Delivery(eligible[index], w, skipped)];
      if !skipped {
        fired := fired[w := (if w in fired then fired[w] else 0) + 1];
        gap := None;
        return false;
      }
      if index + 1 == |eligible| {
        gap := None;
        return false;
      }
      MarkFired(eligible[index + 1]);
      return true;
    }

    /** Another goroutine takes the free lock; an operation that could not occur
        (a known intent enqueued anew, a second tick) is passed over. */
    method Perform(op: Op) returns (done: bool)
      modifies this
      ensures gap == old(gap) && offered == old(offered) && tick == old(tick)
      ensures if done then Next(fireWindow, old(Abs()), op, Abs()) && FromOthers(op) else Abs() == old(Abs())
      ensures done <==> FromOthers(op) && (op.Enqueue? ==> op.intent.id !in old(status))
    {
      done := true;
      match op {
        case Enqueue(i) =>
          if i.id in status {
            return false;
          }
          Enqueue(i);
        case Claim =>
          var _ := Claim();
        case CancelBySymbol(symbol) => CancelBySymbol(symbol);
        case ClearAfterSettlement => ClearAfterSettlement();
        case _ => done := false;
      }
    }

    method Interleave(ops: seq<Op>) returns (ghost h: History)
      modifies this
      ensures IsHistory(fireWindow, old(Abs()), h) && Last(old(Abs()), h) == Abs()
      ensures gap == old(gap) && offered == old(offered) && tick == old(tick)
      ensures forall k :: 0 <= k < |h| ==> h[k].0 in ops && FromOthers(h[k].0)
    {
      h := [];
      for k := 0 to |ops|
        invariant IsHistory(fireWindow, old(Abs()), h) && Last(old(Abs()), h) == Abs()
        invariant gap == old(gap) && offered == old(offered) && tick == old(tick)
        invariant forall j :: 0 <= j < |h| ==> h[j].0 in ops && FromOthers(h[j].0)
      {
        var done := Perform(ops[k]);
        if done {
          Extend(fireWindow, old(Abs()), h, ops[k], Abs());
          h := h + [(ops[k], Abs())];
        }
      }
    }

    /** The whole tick: a history that begins with this tick, contains only its
        own returns and the others' operations, and ends with the lock free. */
    method Tick(w: Window, until: int, now: int, rounds: seq<Round>) returns (ghost h: History)
      requires gap.None?
      modifies this
      ensures gap.None?
      ensures IsHistory(fireWindow, old(Abs()), h) && Last(old(Abs()), h) == Abs()
      ensures h != [] && h[0].0 == Op.BeginTick(w, until, now)
      ensures forall k :: 0 < k < |h| ==> h[k].0.Return? || FromOthers(h[k].0)
    {
      var eligible := BeginTick(w, until, now);
      Extend(fireWindow, old(Abs()), [], Op.BeginTick(w, until, now), Abs());
      h := [(Op.BeginTick(w, until, now), Abs())];
      var index: nat, running := 0, eligible != [];
      while running
        invariant running <==> gap.Some?
        invariant running ==> gap == Some(w) && offered == eligible && |tick| == index < |eligible|
        invariant IsHistory(fireWindow, old(Abs()), h) && Last(old(Abs()), h) == Abs()
        invariant h != [] && h[0].0 == Op.BeginTick(w, until, now)
        invariant forall k :: 0 < k < |h| ==> h[k].0.Return? || FromOthers(h[k].0)
        decreases running, |eligible| - index
      {
        var round := if index < |rounds| then rounds[index] else Round([], false);
        ghost var mid := Abs();
        ghost var others := Interleave(round.others);
        Join(fireWindow, old(Abs()), h, others);
        h := h + others;
        ghost var before := Abs();
        running := AfterExec(eligible, index, w, round.skipped);
        Extend(fireWindow, old(Abs()), h, Op.Return(round.skipped), Abs());
        h := h + [(Op.Return(round.skipped), Abs())];
        index := index + 1;
      }
    }
  }

  // ---------------------------------------------------------------- scheduler.go

  /** Scheduler.tick's drive of the queue, reading the clock once. */
  method SchedulerTick(q: IntentQueue, now: int, windowStart: int, rounds: seq<Round>) returns (ghost h: History)
    requires q.gap.None?
    modifies q
    ensures q.gap.None?
    ensures IsHistory(q.fireWindow, old(q.Abs()), h) && Last(old(q.Abs()), h) == q.Abs()
    ensures h != [] && h[0].0 == ScheduledOp(now, windowStart)
  {
    var window := CurrentWindow(now, windowStart);
    if window == NONE {
      ghost var before := q.Abs();
      q.ClearAfterSettlement();
      Extend(q.fireWindow, before, [], Op.ClearAfterSettlement, q.Abs());
      h := [(Op.ClearAfterSettlement, q.Abs())];
    } else {
      var next := NextFundingTime(now);
      h := q.Tick(window, next - now, now, rounds);
    }
  }

  /** What the scheduler does to the queue at `now`. */
  function ScheduledOp(now: int, windowStart: int): Op {
    var w := CurrentWindow(now, windowStart);
    if w == NONE then Op.ClearAfterSettlement else Op.BeginTick(w, NextFunding(now) - now, now)
  }

  /** What a scheduled tick takes up for delivery was in the queue, unexpired, and
      is of a kind that may fire at that time: within its span of the settlement
      grid, never at a settlement instant. */
  lemma ScheduledTickFiresOnTime(fireWindow: int, windowStart: int, q: Queue, now: int, q': Queue)
    requires 6 * MINUTE <= fireWindow && 6 * MINUTE <= windowStart < CYCLE
    requires R.Inv(q) && ScheduledOp(now, windowStart).BeginTick?
    requires Next(fireWindow, q, ScheduledOp(now, windowStart), q')
    ensures forall i :: i in q'.offered ==>
                          && i in q.intents
                          && now <= i.expiresAt
                          && match i.target
                             case AfterMode => 0 < Since(now) < MINUTE
                             case LastMinuteMode => 0 < Since(now) < MINUTE || CYCLE - Since(now) <= 6 * MINUTE
                             case FrontrunMode => 0 < Since(now) < MINUTE || CYCLE - Since(now) <= Min(fireWindow, windowStart)
                             case UnknownMode => false
    ensures D.Counted(q) ==>
              forall i :: i in q.intents && now <= i.expiresAt && O.RoomFor(q, CurrentWindow(now, windowStart)) ==>
                            (i in q'.offered <==> match i.target
                                                  case AfterMode => 0 < Since(now) < MINUTE
                                                  case LastMinuteMode => 0 < Since(now) < MINUTE || CYCLE - Since(now) <= 6 * MINUTE
                                                  case FrontrunMode =>
                                                    || 0 < Since(now) < MINUTE
                                                    || CYCLE - Since(now) <= Min(Min(fireWindow, windowStart), 3 * HOUR)
                                                  case UnknownMode => false)
    ensures D.Counted(q) && q'.offered != [] ==> O.RoomFor(q, CurrentWindow(now, windowStart))
  {
    var w, until := CurrentWindow(now, windowStart), NextFunding(now) - now;
    var q1 := q.(intents := Filter(q.intents, Unexpired(now)), tick := []);
    FilterKeeps(q.intents, Unexpired(now));
    R.EligibleInQueue(q1, w);
    FiringTimes(now, windowStart, fireWindow);
    if D.Counted(q) {
      O.TickOffersIff(fireWindow, q, w, until, now, q');
      if q'.offered != [] {
        assert q'.offered[0] in q'.offered;
      }
    }
    forall i | i in q'.offered
      ensures i in q.intents && now <= i.expiresAt && MayFire(now, windowStart, fireWindow, i.target)
    {
      assert i in q1.intents;
    }
  }

  /** The scheduler ticks the queue exactly within the window before a settlement
      (not in the hour after the last one) and in the minute after, under that
      window's name; at any other time, the settlement instant included, it clears. */
  lemma ScheduledWindow(now: int, windowStart: int)
    requires 6 * MINUTE <= windowStart < CYCLE
    ensures var since, op := Since(now), ScheduledOp(now, windowStart);
            if 0 < since < MINUTE then op.BeginTick? && op.window == AFTER
            else if since >= CYCLE - 6 * MINUTE then op == BeginTick(LAST_MINUTE, CYCLE - since, now)
            else if since >= HOUR && since >= CYCLE - windowStart then op == BeginTick(FRONTRUN, CYCLE - since, now)
            else op == Op.ClearAfterSettlement
  {
  }
}
