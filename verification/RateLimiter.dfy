/** The token bucket of internal/llm/client.go. */
module RateLimiter {

  const MINUTE: int := 60_000_000_000

  datatype Bucket = Bucket(tokens: int, lastFill: int)

  /** Tokens earned, as a real number, in d nanoseconds. */
  function Earned(maxRPM: nat, d: int): real {
    d as real / MINUTE as real * maxRPM as real
  }

  /** Go's int(x): towards zero. */
  function Truncate(x: real): int {
    if x >= 0.0 then x.Floor else -(-x).Floor
  }

  function Create(maxRPM: nat, now: int): Bucket {
    Bucket(maxRPM, now)
  }

  function Refill(maxRPM: nat, b: Bucket, now: int): Bucket {
    var refill := Truncate(Earned(maxRPM, now - b.lastFill));
    if refill > 0 then Bucket(if b.tokens + refill > maxRPM then maxRPM else b.tokens + refill, now) else b
  }

  function AllowStep(maxRPM: nat, b: Bucket, now: int): (Bucket, bool) {
    var f := Refill(maxRPM, b, now);
    if f.tokens <= 0 then (f, false) else (f.(tokens := f.tokens - 1), true)
  }

  class Limiter {
    const maxRPM: nat
    var tokens: int
    var lastFill: int

    ghost function Abs(): Bucket
      reads this
    {
      Bucket(tokens, lastFill)
    }

    constructor (maxRPM: nat, now: int)
      ensures this.maxRPM == maxRPM && Abs() == Create(maxRPM, now)
    {
      this.maxRPM, tokens, lastFill := maxRPM, maxRPM, now;
    }

    method Allow(now: int) returns (allowed: bool)
      modifies this
      ensures (Abs(), allowed) == AllowStep(maxRPM, old(Abs()), now)
    {
      var elapsed := now - lastFill;
      var refill := Truncate(Earned(maxRPM, elapsed));
      if refill > 0 {
        tokens := tokens + refill;
        if tokens > maxRPM {
          tokens := maxRPM;
        }
        lastFill := now;
      }
      if tokens <= 0 {
        return false;
      }
      tokens := tokens - 1;
      return true;
    }
  }

  // ---------------------------------------------------------------- runs of calls

  function Final(maxRPM: nat, b: Bucket, times: seq<int>): Bucket
    decreases |times|
  {
    if times == [] then b else Final(maxRPM, AllowStep(maxRPM, b, times[0]).0, times[1..])
  }

  function Allowed(maxRPM: nat, b: Bucket, times: seq<int>): nat
    decreases |times|
  {
    if times == [] then 0
    else
      var (b', ok) := AllowStep(maxRPM, b, times[0]);
      (if ok then 1 else 0) + Allowed(maxRPM, b', times[1..])
  }

  /** Call times that never go back, from start to end. */
  predicate Clock(start: int, times: seq<int>, end: int) {
    && start <= end
    && (forall i :: 0 <= i < |times| ==> start <= times[i] <= end)
    && (forall i, j :: 0 <= i < j < |times| ==> times[i] <= times[j])
  }

  predicate Sane(maxRPM: nat, b: Bucket) {
    0 <= b.tokens <= maxRPM
  }

  lemma EarnedAdds(maxRPM: nat, a: int, b: int)
    ensures Earned(maxRPM, a + b) == Earned(maxRPM, a) + Earned(maxRPM, b)
    ensures a >= 0 ==> Earned(maxRPM, a) >= 0.0
  {
  }

  /** Tokens held plus tokens being earned. */
  function Credit(maxRPM: nat, b: Bucket, now: int): real {
    b.tokens as real + Earned(maxRPM, now - b.lastFill)
  }

  /** A call spends one credit per permission and never mints any; right after it
      less than one token is being earned. */
  lemma CallSpends(maxRPM: nat, b: Bucket, now: int)
    requires Sane(maxRPM, b) && b.lastFill <= now
    ensures var (b', ok) := AllowStep(maxRPM, b, now);
            && Sane(maxRPM, b') && b'.lastFill <= now
            && Credit(maxRPM, b', now) + (if ok then 1.0 else 0.0) <= Credit(maxRPM, b, now)
            && Credit(maxRPM, b', now) + (if ok then 1.0 else 0.0) < maxRPM as real + 1.0
  {
  }

  lemma {:induction false} RunSpends(maxRPM: nat, b: Bucket, start: int, times: seq<int>, end: int)
    requires Sane(maxRPM, b) && b.lastFill <= start && Clock(start, times, end)
    ensures Sane(maxRPM, Final(maxRPM, b, times)) && Final(maxRPM, b, times).lastFill <= end
    ensures Allowed(maxRPM, b, times) as real + Credit(maxRPM, Final(maxRPM, b, times), end)
         <= Credit(maxRPM, b, start) + Earned(maxRPM, end - start)
    decreases |times|
  {
    if times == [] {
      EarnedAdds(maxRPM, start - b.lastFill, end - start);
    } else {
      var t := times[0];
      var (b', ok) := AllowStep(maxRPM, b, t);
      CallSpends(maxRPM, b, t);
      RunSpends(maxRPM, b', t, times[1..], end);
      EarnedAdds(maxRPM, start - b.lastFill, t - start);
      EarnedAdds(maxRPM, t - start, end - t);
    }
  }

  /** Tokens stay within the bucket, and since creation no more calls were allowed
      than the bucket plus what the elapsed time earned. */
  lemma AllowedSinceCreation(maxRPM: nat, created: int, times: seq<int>, end: int)
    requires Clock(created, times, end)
    ensures Sane(maxRPM, Final(maxRPM, Create(maxRPM, created), times))
    ensures Allowed(maxRPM, Create(maxRPM, created), times) as real <= maxRPM as real + Earned(maxRPM, end - created)
  {
    var b := Create(maxRPM, created);
    RunSpends(maxRPM, b, created, times, end);
    assert Earned(maxRPM, 0) == 0.0;
    EarnedAdds(maxRPM, end - Final(maxRPM, b, times).lastFill, 0);
  }

  /** After any earlier calls, the calls falling in an interval of length L get
      fewer than maxRPM + 1 + (what L earns) permissions. */
  lemma AllowedInAnyInterval(maxRPM: nat, created: int, earlier: seq<int>, times: seq<int>, from: int, L: nat)
    requires Clock(created, earlier, from) && Clock(from, times, from + L)
    ensures Allowed(maxRPM, Final(maxRPM, Create(maxRPM, created), earlier), times) as real
          < maxRPM as real + 1.0 + Earned(maxRPM, L)
  {
    RunSpends(maxRPM, Create(maxRPM, created), created, earlier, from);
    var b := Final(maxRPM, Create(maxRPM, created), earlier);
    EarnedAdds(maxRPM, L, 0);
    if times != [] {
      var t := times[0];
      var b' := AllowStep(maxRPM, b, t).0;
      CallSpends(maxRPM, b, t);
      RunSpends(maxRPM, b', t, times[1..], from + L);
      EarnedAdds(maxRPM, from + L - t, t - from);
      EarnedAdds(maxRPM, t - from, 0);
      EarnedAdds(maxRPM, from + L - Final(maxRPM, b', times[1..]).lastFill, 0);
    }
  }

  function Repeat(t: int, n: nat): seq<int> {
    if n == 0 then [] else [t] + Repeat(t, n - 1)
  }

  lemma {:induction false} Drain(maxRPM: nat, b: Bucket, n: nat, rest: seq<int>)
    requires n <= b.tokens
    ensures Allowed(maxRPM, b, Repeat(b.lastFill, n) + rest)
         == n + Allowed(maxRPM, Bucket(b.tokens - n, b.lastFill), rest)
    decreases n
  {
    assert Earned(maxRPM, 0) == 0.0;
    if n == 0 {
      assert Repeat(b.lastFill, 0) + rest == rest;
    } else {
      var calls := Repeat(b.lastFill, n) + rest;
      assert calls[1..] == Repeat(b.lastFill, n - 1) + rest;
      Drain(maxRPM, Bucket(b.tokens - 1, b.lastFill), n - 1, rest);
    }
  }

  /** "MaxRPM requests per minute" holds on average only: a burst at creation and
      one a minute later are both allowed in full. */
  lemma BurstsAllowTwiceTheRate(maxRPM: nat, created: int)
    requires maxRPM > 0
    ensures Allowed(maxRPM, Create(maxRPM, created), Repeat(created, maxRPM) + Repeat(created + MINUTE, maxRPM)) == 2 * maxRPM
  {
    var later := Repeat(created + MINUTE, maxRPM);
    Drain(maxRPM, Create(maxRPM, created), maxRPM, later);
    assert Earned(maxRPM, MINUTE) == maxRPM as real;
    assert later[1..] == Repeat(created + MINUTE, maxRPM - 1);
    assert AllowStep(maxRPM, Bucket(0, created), created + MINUTE) == (Bucket(maxRPM - 1, created + MINUTE), true);
    Drain(maxRPM, Bucket(maxRPM - 1, created + MINUTE), maxRPM - 1, []);
    assert Repeat(created + MINUTE, maxRPM - 1) + [] == later[1..];
  }

  // ---------------------------------------------------------------- what is never refused

  /** At least one token has been earned since the last fill. */
  predicate TokenEarned(maxRPM: nat, b: Bucket, now: int) {
    (now - b.lastFill) * maxRPM >= MINUTE
  }

  /** Such a call is allowed, and one of a bucket with tokens left. */
  lemma EarnedIsAllowed(maxRPM: nat, b: Bucket, now: int)
    requires Sane(maxRPM, b) && maxRPM > 0 && b.lastFill <= now && (TokenEarned(maxRPM, b, now) || b.tokens > 0)
    ensures AllowStep(maxRPM, b, now).1
  {
    if TokenEarned(maxRPM, b, now) {
      var d := now - b.lastFill;
      assert d as real * maxRPM as real == (d * maxRPM) as real;
      assert Earned(maxRPM, d) == (d * maxRPM) as real / MINUTE as real;
      AtLeastOne((d * maxRPM) as real, MINUTE as real);
    }
  }

  lemma AtLeastOne(x: real, y: real)
    requires y > 0.0 && x >= y
    ensures x / y >= 1.0
  {
  }

  predicate Spaced(maxRPM: nat, times: seq<int>) {
    forall i :: 0 < i < |times| ==> (times[i] - times[i - 1]) * maxRPM >= MINUTE
  }

  lemma {:induction false} SpacedRun(maxRPM: nat, b: Bucket, times: seq<int>)
    requires Sane(maxRPM, b) && maxRPM > 0 && Spaced(maxRPM, times)
    requires times != [] ==> b.lastFill <= times[0] && (TokenEarned(maxRPM, b, times[0]) || b.tokens > 0)
    ensures Allowed(maxRPM, b, times) == |times|
    decreases |times|
  {
    if times != [] {
      var t, b' := times[0], AllowStep(maxRPM, b, times[0]).0;
      EarnedIsAllowed(maxRPM, b, t);
      CallSpends(maxRPM, b, t);
      if |times| > 1 {
        Spacing(t, times[1], maxRPM);
        assert (times[1] - b'.lastFill) * maxRPM >= (times[1] - t) * maxRPM;
      }
      SpacedRun(maxRPM, b', times[1..]);
    }
  }

  lemma Spacing(t: int, u: int, maxRPM: nat)
    requires (u - t) * maxRPM >= MINUTE
    ensures t < u
  {
  }

  /** Calls no closer than the rate asks are all allowed, however many. */
  lemma SpacedCallsAllAllowed(maxRPM: nat, created: int, times: seq<int>)
    requires maxRPM > 0 && Spaced(maxRPM, times) && (times != [] ==> created <= times[0])
    ensures Allowed(maxRPM, Create(maxRPM, created), times) == |times|
  {
    SpacedRun(maxRPM, Create(maxRPM, created), times);
  }
}
