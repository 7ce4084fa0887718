/** internal/intent/queue.go as steps at lock granularity.  A tick holds the lock
    except while execFn runs; whatever takes the lock then is a step of its own. */
module QueueSpec {
  import opened Options
  import opened Windows

  /** `id` is the identity of the queued object, whose Status is in `status`. */
  datatype Intent = Intent(id: nat, symbol: string, confidence: int, target: EntryMode, expiresAt: int)
  datatype Status = PENDING | FIRED
  datatype Delivery = Delivery(intent: Intent, window: Window, skipped: bool)

  /** offered: the eligible intents the current (or last) tick took a copy of.
      tick:    what that tick has delivered so far.
      gap:     set while the tick's execFn runs on offered[|tick|], lock released.
      cycle:   all deliveries since the last clear.
      started: every intent ever handed out. */
  datatype Queue = Queue(
    intents: seq<Intent>,
    status: map<nat, Status>,
    fired: map<Window, nat>,
    gap: Option<Window>,
    offered: seq<Intent>,
    tick: seq<Delivery>,
    cycle: seq<Delivery>,
    started: seq<Intent>)

  datatype Op =
    | Enqueue(intent: Intent)
    | BeginTick(window: Window, until: int, now: int) // up to the first unlock, or to the end
    | Return(skipped: bool)                           // execFn returned; up to the next unlock or the end
    | Claim
    | CancelBySymbol(symbol: string)
    | ClearAfterSettlement

  // ---------------------------------------------------------------- filters

  function Filter(s: seq<Intent>, keep: Intent -> bool): seq<Intent> {
    if s == [] then []
    else Filter(s[..|s| - 1], keep) + if keep(s[|s| - 1]) then [s[|s| - 1]] else []
  }

  function Unexpired(now: int): Intent -> bool { (i: Intent) => now <= i.expiresAt }
  function OtherThan(target: Intent): Intent -> bool { (i: Intent) => i.id != target.id }
  function NotPendingSymbol(status: map<nat, Status>, symbol: string): Intent -> bool {
    (i: Intent) => i.symbol != symbol || (i.id in status && status[i.id] != PENDING)
  }
  function EligibleFor(status: map<nat, Status>, w: Window): Intent -> bool {
    (i: Intent) => i.id in status && status[i.id] == PENDING && Ready(w, i.target)
  }

  predicate Ranked(s: seq<Intent>) {
    forall i, j :: 0 <= i < j < |s| ==> s[i].confidence >= s[j].confidence
  }

  predicate OnePerSymbol(s: seq<Intent>) {
    forall i, j :: 0 <= i < j < |s| ==> s[i].symbol != s[j].symbol
  }

  predicate DistinctIds(s: seq<Intent>) {
    forall i, j :: 0 <= i < j < |s| ==> s[i].id != s[j].id
  }

  lemma {:induction false} FilterMembers(s: seq<Intent>, keep: Intent -> bool)
    ensures forall x :: x in Filter(s, keep) <==> x in s && keep(x)
  {
    if s != [] {
      assert s == s[..|s| - 1] + [s[|s| - 1]];
      FilterMembers(s[..|s| - 1], keep);
    }
  }

  /** Filtering keeps the order: its elements sit at increasing places of s. */
  lemma {:induction false} FilterPlaces(s: seq<Intent>, keep: Intent -> bool) returns (at: seq<nat>)
    ensures |at| == |Filter(s, keep)|
    ensures forall i :: 0 <= i < |at| ==> at[i] < |s| && s[at[i]] == Filter(s, keep)[i]
    ensures forall i, j :: 0 <= i < j < |at| ==> at[i] < at[j]
  {
    if s == [] {
      at := [];
    } else {
      var t := s[..|s| - 1];
      at := FilterPlaces(t, keep);
      if keep(s[|s| - 1]) {
        at := at + [|s| - 1];
      }
    }
  }

  lemma FilterKeeps(s: seq<Intent>, keep: Intent -> bool)
    ensures forall x :: x in Filter(s, keep) <==> x in s && keep(x)
    ensures Ranked(s) ==> Ranked(Filter(s, keep))
    ensures OnePerSymbol(s) ==> OnePerSymbol(Filter(s, keep))
    ensures DistinctIds(s) ==> DistinctIds(Filter(s, keep))
  {
    FilterMembers(s, keep);
    var at := FilterPlaces(s, keep);
  }

  // ---------------------------------------------------------------- steps

  function Count(fired: map<Window, nat>, w: Window): nat {
    if w in fired then fired[w] else 0
  }

  function Cap(w: Window): nat {
    if w == AFTER then 1 else 2
  }

  /** Enqueue replaces the first pending intent of the symbol, else appends. */
  function IndexOfPending(s: seq<Intent>, status: map<nat, Status>, symbol: string): (k: nat)
    ensures k <= |s|
    ensures k < |s| ==> s[k].symbol == symbol && s[k].id in status && status[s[k].id] == PENDING
    ensures forall j :: 0 <= j < k ==> !(s[j].symbol == symbol && s[j].id in status && status[s[j].id] == PENDING)
  {
    if s == [] then 0
    else if s[0].symbol == symbol && s[0].id in status && status[s[0].id] == PENDING then 0
    else 1 + IndexOfPending(s[1..], status, symbol)
  }

  function Insert(q: Queue, i: Intent): seq<Intent> {
    var k := IndexOfPending(q.intents, q.status, i.symbol);
    if k < |q.intents| then q.intents[k := i] else q.intents + [i]
  }

  /** Mark an intent fired and take it out of the queue. */
  function Take(q: Queue, i: Intent): Queue {
    q.(status := q.status[i.id := FIRED],
    intents := Filter(q.intents, OtherThan(i)),
    started := q.started + [i])
  }

  /** May a tick in this window deliver at all? */
  predicate Open(fireWindow: int, q: Queue, w: Window, until: int) {
    && w != NONE
    && Count(q.fired, w) < Cap(w)
    && (w == FRONTRUN ==> until <= fireWindow)
  }

  function BeginTickStep(fireWindow: int, q: Queue, w: Window, until: int, now: int): Queue {
    var q := q.(intents := Filter(q.intents, Unexpired(now)), tick := []);
    var eligible := if Open(fireWindow, q, w, until) then Filter(q.intents, EligibleFor(q.status, w)) else [];
    if eligible == [] then q.(offered := [])
    else Take(q.(offered := eligible, gap := Some(w)), eligible[0])
  }

  function ReturnStep(q: Queue, skipped: bool): Queue
    requires q.gap.Some? && |q.tick| < |q.offered|
  {
    var w := q.gap.value;
    var d := Delivery(q.offered[|q.tick|], w, skipped);
    var q := q.(tick := q.tick + [d], cycle := q.cycle + [d]);
    if !skipped then q.(gap := None, fired := q.fired[w := Count(q.fired, w) + 1])
    else if |q.tick| < |q.offered| then Take(q, q.offered[|q.tick|])
    else q.(gap := None)
  }

  /** The intent ClaimAfterIntent would hand out. */
  function Claimable(q: Queue): Option<Intent> {
    var eligible := Filter(q.intents, EligibleFor(q.status, AFTER));
    if Count(q.fired, AFTER) >= 1 || eligible == [] then None else Some(eligible[0])
  }

  function ClaimStep(q: Queue): Queue {
    match Claimable(q)
    case None => q
    case Some(i) =>
      var q := Take(q, i);
      q.(fired := q.fired[AFTER := Count(q.fired, AFTER) + 1], cycle := q.cycle + [Delivery(i, AFTER, false)])
  }

  predicate Enabled(q: Queue, op: Op) {
    match op
    case Enqueue(i) => i.id !in q.status // a newly made intent
    case BeginTick(_, _, _) => q.gap.None?
    case Return(_) => q.gap.Some? && |q.tick| < |q.offered|
    case _ => true
  }

  /** sort.Slice is unstable: an enqueue may leave equal confidences in any order. */
  predicate Next(fireWindow: int, q: Queue, op: Op, q': Queue) {
    && Enabled(q, op)
    && match op
       case Enqueue(i) =>
         && Ranked(q'.intents)
         && multiset(q'.intents) == multiset(Insert(q, i))
         && q' == q.(intents := q'.intents, status := q.status[i.id := PENDING])
       case BeginTick(w, until, now) => q' == BeginTickStep(fireWindow, q, w, until, now)
       case Return(skipped) => q' == ReturnStep(q, skipped)
       case Claim => q' == ClaimStep(q)
       case CancelBySymbol(symbol) => q' == q.(intents := Filter(q.intents, NotPendingSymbol(q.status, symbol)))
       case ClearAfterSettlement => q' == q.(intents := [], fired := map[], cycle := [])
  }

  const EMPTY: Queue := Queue([], map[], map[], None, [], [], [], [])

  /** A history: each entry is an operation and the queue it left. */
  type History = seq<(Op, Queue)>

  function Last(q: Queue, h: History): Queue {
    if h == [] then q else h[|h| - 1].1
  }

  /** Every prefix of a history is a history, so a property of the last queue of
      every history is a property of every queue reached. */
  predicate IsHistory(fireWindow: int, q: Queue, h: History) {
    h != [] ==>
      && IsHistory(fireWindow, q, h[..|h| - 1])
      && Next(fireWindow, Last(q, h[..|h| - 1]), h[|h| - 1].0, h[|h| - 1].1)
  }

  lemma Extend(fireWindow: int, q: Queue, h: History, op: Op, q': Queue)
    requires IsHistory(fireWindow, q, h) && Next(fireWindow, Last(q, h), op, q')
    ensures IsHistory(fireWindow, q, h + [(op, q')]) && Last(q, h + [(op, q')]) == q'
  {
  }

  lemma {:induction false} Join(fireWindow: int, q: Queue, h: History, t: History)
    requires IsHistory(fireWindow, q, h) && IsHistory(fireWindow, Last(q, h), t)
    ensures IsHistory(fireWindow, q, h + t) && Last(q, h + t) == Last(Last(q, h), t)
  {
    hide Next;
    if t == [] {
      assert h + t == h;
    } else {
      var s, x := t[..|t| - 1], t[|t| - 1];
      Join(fireWindow, q, h, s);
      Extend(fireWindow, q, h + s, x.0, x.1);
      assert h + t == h + s + [x];
    }
  }
}
