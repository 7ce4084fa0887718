/** internal/exchange/binance_client.go: paging through historical candles and
    replaying a short's outcome over them.  Open times are in milliseconds. */
module Klines {
  import opened Options
  import opened Candles

  const LIMIT: nat := 1000

  predicate Ascending(log: seq<Candle>) {
    forall i, j :: 0 <= i < j < |log| ==> log[i].openTime < log[j].openTime
  }

  /** The candles opening in [start, end]. */
  function Range(log: seq<Candle>, start: int, end: int): seq<Candle> {
    if log == [] then []
    else (if start <= log[0].openTime <= end then [log[0]] else []) + Range(log[1..], start, end)
  }

  /** The exchange: a request answers with the earliest `limit` candles of the
      range, or fails; request n fails exactly when n is in `failing`. */
  class Server {
    const log: seq<Candle>
    const failing: set<nat>
    var requests: nat

    constructor (log: seq<Candle>, failing: set<nat>)
      ensures this.log == log && this.failing == failing && requests == 0
    {
      this.log, this.failing, requests := log, failing, 0;
    }

    method Get(start: int, end: int, limit: nat) returns (raw: Option<seq<Candle>>)
      modifies this
      ensures requests == old(requests) + 1
      ensures raw == if old(requests) in failing then None
              else var r := Range(log, start, end); Some(if |r| <= limit then r else r[..limit])
    {
      var r := Range(log, start, end);
      raw := if requests in failing then None else Some(if |r| <= limit then r else r[..limit]);
      requests := requests + 1;
    }
  }

  lemma {:induction false} RangeIs(log: seq<Candle>, start: int, end: int)
    requires Ascending(log)
    ensures Ascending(Range(log, start, end))
    ensures forall x :: x in Range(log, start, end) <==> x in log && start <= x.openTime <= end
  {
    if log != [] {
      RangeIs(log[1..], start, end);
      assert log == [log[0]] + log[1..];
      var rest := Range(log[1..], start, end);
      forall j | 0 <= j < |rest|
        ensures log[0].openTime < rest[j].openTime
      {
        assert rest[j] in rest && rest[j] in log[1..];
      }
    }
  }

  lemma {:induction false} RangeFromBefore(log: seq<Candle>, a: int, b: int, end: int)
    requires forall x :: x in log ==> a <= x.openTime && b <= x.openTime
    ensures Range(log, a, end) == Range(log, b, end)
  {
    if log != [] {
      RangeFromBefore(log[1..], a, b, end);
    }
  }

  lemma RangeOfCons(log: seq<Candle>, start: int, end: int)
    requires log != []
    ensures Range(log, start, end) == if start <= log[0].openTime <= end
                                      then [log[0]] + Range(log[1..], start, end)
                                      else Range(log[1..], start, end)
  {
  }

  /** Asking again just after the n-th candle of a range yields the rest of it. */
  lemma {:induction false} RangeAfterPage(log: seq<Candle>, start: int, end: int, n: nat)
    requires Ascending(log) && 0 < n <= |Range(log, start, end)|
    ensures Range(log, Range(log, start, end)[n - 1].openTime + 1, end) == Range(log, start, end)[n..]
  {
    hide Range;
    RangeIs(log, start, end);
    NotEmpty(log, start, end);
    var r, t := Range(log, start, end), log[1..];
    RangeOfCons(log, start, end);
    assert r[n - 1] in r;
    RangeOfCons(log, r[n - 1].openTime + 1, end);
    if start <= log[0].openTime <= end {
      if n == 1 {
        RangeFromBefore(t, start, log[0].openTime + 1, end);
      } else {
        RangeAfterPage(t, start, end, n - 1);
        assert r[n - 1] == Range(t, start, end)[n - 2];
        assert r[0].openTime < r[n - 1].openTime;
      }
    } else {
      RangeAfterPage(t, start, end, n);
    }
  }

  lemma NotEmpty(log: seq<Candle>, start: int, end: int)
    ensures Range(log, start, end) != [] ==> log != []
  {
  }

  /** The loop's step: a non-empty page of n candles and what is left after it. */
  lemma PageAndRest(log: seq<Candle>, start: int, end: int, page: seq<Candle>)
    requires Ascending(log) && page != [] && page <= Range(log, start, end)
    ensures var last := page[|page| - 1].openTime;
            && Range(log, start, end) == page + Range(log, last + 1, end)
            && (last >= end ==> Range(log, last + 1, end) == [])
  {
    hide Range;
    var n := |page|;
    var r := Range(log, start, end);
    assert r[..n] == page && r[n - 1] == page[n - 1];
    RangeAfterPage(log, start, end, n);
    NothingAfter(log, page[n - 1].openTime + 1, end);
  }

  /** The loop returns every candle of the range once, in order, or an error
      exactly when one of its requests failed. */
  method GetHistoricalKlines(server: Server, start: int, end: int) returns (r: Option<seq<Candle>>)
    requires Ascending(server.log)
    modifies server
    ensures r.Some? ==> r.value == Range(server.log, start, end)
    ensures r.None? <==> exists n :: old(server.requests) <= n < server.requests && n in server.failing
  {
    hide Range;
    var all: seq<Candle> := [];
    var from := start;
    while true
      invariant server.requests >= old(server.requests)
      invariant forall n :: old(server.requests) <= n < server.requests ==> n !in server.failing
      invariant all + Range(server.log, from, end) == Range(server.log, start, end)
      decreases |Range(server.log, from, end)|
    {
      var raw := server.Get(from, end, LIMIT);
      if raw.None? {
        return None;
      }
      if raw.value == [] {
        break;
      }
      PageAndRest(server.log, from, end, raw.value);
      all := all + raw.value;
      var last := raw.value[|raw.value| - 1].openTime;
      if last >= end || |raw.value| < LIMIT {
        break;
      }
      from := last + 1;
    }
    return Some(all);
  }

  lemma {:induction false} NothingAfter(log: seq<Candle>, start: int, end: int)
    ensures start > end ==> Range(log, start, end) == []
  {
    if log != [] {
      NothingAfter(log[1..], start, end);
    }
  }

  // ---------------------------------------------------------------- price outcome

  /** Candle k is the first to reach either level. */
  predicate FirstHit(c: seq<Candle>, tpPrice: real, slPrice: real, k: nat) {
    && k < |c|
    && (c[k].low <= tpPrice || c[k].high >= slPrice)
    && forall j :: 0 <= j < k ==> c[j].low > tpPrice && c[j].high < slPrice
  }

  predicate NoHit(c: seq<Candle>, tpPrice: real, slPrice: real) {
    forall j :: 0 <= j < |c| ==> c[j].low > tpPrice && c[j].high < slPrice
  }

  function TPLevel(entry: real, tpPct: real): real { entry * (1.0 - tpPct / 100.0) }
  function SLLevel(entry: real, slPct: real): real { entry * (1.0 + slPct / 100.0) }

  /** A short's profit in per cent at a price. */
  function ProfitPct(entry: real, price: real): real
    requires entry != 0.0
  {
    (entry - price) / entry * 100.0
  }

  lemma ProfitAtLevels(entry: real, pct: real)
    requires entry != 0.0
    ensures ProfitPct(entry, TPLevel(entry, pct)) == pct
    ensures ProfitPct(entry, SLLevel(entry, pct)) == -pct
  {
  }

  /** What is returned for the candles of the period; None is an error. */
  ghost predicate IsOutcome(c: seq<Candle>, tpPct: real, slPct: real, r: Option<real>) {
    if c == [] || c[0].open == 0.0 then r.None?
    else
      var entry := c[0].open;
      var tp, sl := TPLevel(entry, tpPct), SLLevel(entry, slPct);
      && r.Some?
      && (forall k: nat :: FirstHit(c, tp, sl, k) ==> r.value == if c[k].low <= tp then tpPct else -slPct)
      && (NoHit(c, tp, sl) ==> r.value == ProfitPct(entry, c[|c| - 1].close))
  }

  method PriceOutcome(c: seq<Candle>, tpPct: real, slPct: real) returns (r: Option<real>)
    ensures IsOutcome(c, tpPct, slPct, r)
  {
    if c == [] {
      return None;
    }
    var entry := c[0].open;
    if entry == 0.0 {
      return None;
    }
    var tpPrice, slPrice := TPLevel(entry, tpPct), SLLevel(entry, slPct);
    ProfitAtLevels(entry, tpPct);
    ProfitAtLevels(entry, slPct);
    for i := 0 to |c|
      invariant forall j :: 0 <= j < i ==> c[j].low > tpPrice && c[j].high < slPrice
    {
      if c[i].low <= tpPrice {
        return Some(ProfitPct(entry, tpPrice));
      }
      if c[i].high >= slPrice {
        return Some(ProfitPct(entry, slPrice));
      }
    }
    return Some(ProfitPct(entry, c[|c| - 1].close));
  }

  /** GetPriceOutcome: the candles of [from, to] replayed. */
  method GetPriceOutcome(server: Server, from: int, to: int, tpPct: real, slPct: real) returns (r: Option<real>)
    requires Ascending(server.log)
    modifies server
    ensures (exists n :: old(server.requests) <= n < server.requests && n in server.failing) ==> r.None?
    ensures !(exists n :: old(server.requests) <= n < server.requests && n in server.failing) ==>
              IsOutcome(Range(server.log, from, to), tpPct, slPct, r)
  {
    var candles := GetHistoricalKlines(server, from, to);
    if candles.None? {
      return None;
    }
    r := PriceOutcome(candles.value, tpPct, slPct);
  }

  lemma {:induction false} HitOrNone(c: seq<Candle>, tp: real, sl: real, i: nat) returns (k: nat)
    requires i <= |c| && forall j :: 0 <= j < i ==> c[j].low > tp && c[j].high < sl
    ensures NoHit(c, tp, sl) || FirstHit(c, tp, sl, k)
    decreases |c| - i
  {
    if i == |c| || c[i].low <= tp || c[i].high >= sl {
      k := i;
    } else {
      k := HitOrNone(c, tp, sl, i + 1);
    }
  }

  /** With real candles (each close between its low and high), the outcome lies
      between the stop and the target. */
  lemma OutcomeBounded(c: seq<Candle>, tpPct: real, slPct: real, r: Option<real>)
    requires IsOutcome(c, tpPct, slPct, r) && c != [] && c[0].open > 0.0
    requires -slPct <= tpPct
    requires forall x :: x in c ==> x.low <= x.close <= x.high
    ensures r.Some? && -slPct <= r.value <= tpPct
  {
    var entry := c[0].open;
    var tp, sl := TPLevel(entry, tpPct), SLLevel(entry, slPct);
    var k := HitOrNone(c, tp, sl, 0);
    if NoHit(c, tp, sl) {
      var close := c[|c| - 1].close;
      assert c[|c| - 1] in c;
      ProfitAtLevels(entry, tpPct);
      ProfitAtLevels(entry, slPct);
      ProfitMonotone(entry, tp, close);
      ProfitMonotone(entry, close, sl);
    }
  }

  lemma ProfitMonotone(entry: real, low: real, high: real)
    requires entry > 0.0 && low <= high
    ensures ProfitPct(entry, high) <= ProfitPct(entry, low)
  {
  }
}
