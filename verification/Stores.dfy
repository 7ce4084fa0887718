/** The two bounded in-memory stores: internal/market/candle_store.go and
    internal/indicator/oi_delta.go.  Each is compared with the unbounded log it
    would be without its size limit. */
module Stores {
  import opened Options
  import opened Candles

  /** The last n entries. */
  function LastN<T>(s: seq<T>, n: nat): seq<T> {
    if |s| <= n then s else s[|s| - n..]
  }

  lemma LastNShort<T>(s: seq<T>, n: nat)
    ensures |s| <= n ==> LastN(s, n) == s
  {
  }

  // ---------------------------------------------------------------- candles

  const MAX_CANDLES: nat := 200
  datatype Timeframe = TF5m | TF15m | TF30m | TF1h | TF4h | TF1d | OtherTF(name: string)
  const ALL_TIMEFRAMES: seq<Timeframe> := [TF5m, TF15m, TF30m, TF1h, TF4h, TF1d]

  datatype SeriesKey = SeriesKey(symbol: string, timeframe: Timeframe)

  /** The unbounded log: a candle with the last one's open time replaces it. */
  function LogUpdate(log: seq<Candle>, c: Candle): seq<Candle> {
    if log != [] && log[|log| - 1].openTime == c.openTime then log[..|log| - 1] + [c] else log + [c]
  }

  function LogAll(log: seq<Candle>, cs: seq<Candle>): seq<Candle> {
    if cs == [] then log else LogUpdate(LogAll(log, cs[..|cs| - 1]), cs[|cs| - 1])
  }

  /** Everything Get can see of a log. */
  function Latest(log: seq<Candle>, limit: nat): seq<Candle> {
    LastN(log, limit)
  }

  lemma TrimmedUpdate(log: seq<Candle>, c: Candle, n: nat)
    requires n > 0
    ensures LastN(LogUpdate(LastN(log, n), c), n) == LastN(LogUpdate(log, c), n)
  {
    if |log| > n {
      var t := LastN(log, n);
      assert t[|t| - 1] == log[|log| - 1];
      if t[|t| - 1].openTime == c.openTime {
        ReplaceLast(log, c, n);
      } else {
        AppendTrimmed(log, c, n);
      }
    }
  }

  lemma ReplaceLast<T>(s: seq<T>, x: T, n: nat)
    requires 0 < n < |s|
    ensures LastN(LastN(s, n)[..n - 1] + [x], n) == LastN(s[..|s| - 1] + [x], n)
  {
    assert LastN(s[..|s| - 1] + [x], n) == s[|s| - n..|s| - 1] + [x];
  }

  lemma AppendTrimmed<T>(s: seq<T>, x: T, n: nat)
    requires 0 < n < |s|
    ensures LastN(LastN(s, n) + [x], n) == LastN(s + [x], n)
  {
    assert LastN(s + [x], n) == s[|s| + 1 - n..] + [x];
  }

  /** The store's answer for any limit up to its size is the unbounded log's. */
  lemma TrimmingUnseen(log: seq<Candle>, limit: nat)
    requires limit <= MAX_CANDLES
    ensures Latest(LastN(log, MAX_CANDLES), limit) == Latest(log, limit)
  {
  }

  /** A newer open time adds to what Latest sees, a repeated one overwrites: in the
      log no two neighbouring candles share an open time. */
  lemma {:induction false} LogHasNoRepeats(cs: seq<Candle>)
    ensures var log := LogAll([], cs); forall i :: 0 < i < |log| ==> log[i - 1].openTime != log[i].openTime
    ensures cs != [] ==> LogAll([], cs) != [] && LogAll([], cs)[|LogAll([], cs)| - 1] == cs[|cs| - 1]
  {
    if cs != [] {
      LogHasNoRepeats(cs[..|cs| - 1]);
      UpdateRepeatsNone(LogAll([], cs[..|cs| - 1]), cs[|cs| - 1]);
    }
  }

  lemma UpdateRepeatsNone(log: seq<Candle>, c: Candle)
    requires forall i :: 0 < i < |log| ==> log[i - 1].openTime != log[i].openTime
    ensures var l := LogUpdate(log, c); l != [] && l[|l| - 1] == c && forall i :: 0 < i < |l| ==> l[i - 1].openTime != l[i].openTime
  {
  }

  lemma NoLog()
    ensures LastN(LogAll([], []), MAX_CANDLES) == []
  {
  }

  /** What is stored for an update of the trimmed log. */
  lemma StoredUpdate(log: seq<Candle>, stored: seq<Candle>, c: Candle)
    requires stored == LastN(log, MAX_CANDLES)
    ensures LastN(LogUpdate(log, c), MAX_CANDLES)
         == if |stored| > 0 && stored[|stored| - 1].openTime == c.openTime then stored[..|stored| - 1] + [c]
            else LastN(stored + [c], MAX_CANDLES)
  {
    TrimmedUpdate(log, c, MAX_CANDLES);
    assert |stored| <= MAX_CANDLES;
  }

  lemma LogOneMore(cs: seq<Candle>, c: Candle)
    ensures LogAll([], cs + [c]) == LogUpdate(LogAll([], cs), c)
  {
    assert (cs + [c])[..|cs|] == cs;
    hide LogUpdate;
  }

  class CandleStore {
    var data: map<SeriesKey, seq<Candle>>
    /** All updates of each series since its last purge. */
    ghost var updates: map<SeriesKey, seq<Candle>>

    ghost predicate Valid()
      reads this
    {
      && data.Keys == updates.Keys
      && forall k :: k in data ==> data[k] == LastN(LogAll([], updates[k]), MAX_CANDLES)
    }

    ghost function Updates(k: SeriesKey): seq<Candle>
      reads this
    {
      if k in updates then updates[k] else []
    }

    constructor ()
      ensures Valid() && updates == map[]
    {
      data, updates := map[], map[];
    }

    method Update(key: SeriesKey, c: Candle)
      requires Valid()
      modifies this
      ensures Valid() && updates == old(updates)[key := old(Updates(key)) + [c]]
    {
      hide LogAll, LogUpdate;
      ghost var stored := if key in data then data[key] else [];
      NoLog();
      StoredUpdate(LogAll([], Updates(key)), stored, c);
      LogOneMore(Updates(key), c);
      updates := updates[key := Updates(key) + [c]];
      var candles := if key in data then data[key] else [];
      if |candles| > 0 && candles[|candles| - 1].openTime == c.openTime {
        data := data[key := candles[..|candles| - 1] + [c]];
        return;
      }
      candles := candles + [c];
      if |candles| > MAX_CANDLES {
        candles := candles[|candles| - MAX_CANDLES..];
      }
      data := data[key := candles];
    }

    /** Removes the symbol's series of the six known timeframes, nothing else. */
    method Purge(symbol: string)
      requires Valid()
      modifies this
      ensures Valid()
      ensures updates == old(updates) - (set tf | tf in ALL_TIMEFRAMES :: SeriesKey(symbol, tf))
    {
      hide LogAll, LastN;
      ghost var gone: set<SeriesKey> := {};
      for i := 0 to |ALL_TIMEFRAMES|
        invariant Valid()
        invariant updates == old(updates) - gone
        invariant gone == set tf | tf in ALL_TIMEFRAMES[..i] :: SeriesKey(symbol, tf)
      {
        var key := SeriesKey(symbol, ALL_TIMEFRAMES[i]);
        data := data - {key};
        updates := updates - {key};
        gone := gone + {key};
        assert ALL_TIMEFRAMES[..i + 1] == ALL_TIMEFRAMES[..i] + [ALL_TIMEFRAMES[i]];
      }
      assert ALL_TIMEFRAMES[..|ALL_TIMEFRAMES|] == ALL_TIMEFRAMES;
    }

    /** For limits up to 200 the answer is that of the unbounded log. */
    method Get(key: SeriesKey, limit: nat) returns (r: seq<Candle>)
      requires Valid()
      ensures limit <= MAX_CANDLES ==> r == Latest(LogAll([], Updates(key)), limit)
      ensures |r| <= limit && |r| <= MAX_CANDLES
    {
      if key !in data || |data[key]| == 0 {
        return [];
      }
      var candles, n := data[key], limit;
      if n > |candles| {
        n := |candles|;
      }
      if limit <= MAX_CANDLES {
        TrimmingUnseen(LogAll([], Updates(key)), limit);
      }
      return candles[|candles| - n..];
    }
  }

  // ---------------------------------------------------------------- open interest

  datatype Snapshot = Snapshot(oi: real, at: int)

  /** How many of the snapshots lead up to and include the last one before cutoff. */
  function UpTo(s: seq<Snapshot>, cutoff: int): (n: nat)
    ensures n <= |s|
    ensures n > 0 ==> s[n - 1].at < cutoff
    ensures forall i :: n <= i < |s| ==> s[i].at >= cutoff
  {
    if s == [] then 0
    else if s[|s| - 1].at < cutoff then |s|
    else UpTo(s[..|s| - 1], cutoff)
  }

  function PercentChange(past: real, current: real): real
    requires past != 0.0
  {
    (current - past) / past * 100.0
  }

  /** Percentage change from the last snapshot before cutoff to the newest one. */
  function DeltaOf(s: seq<Snapshot>, cutoff: int): Option<real> {
    var n := UpTo(s, cutoff);
    if n == 0 || s[n - 1].oi == 0.0 then None
    else Some(PercentChange(s[n - 1].oi, s[|s| - 1].oi))
  }

  lemma {:induction false} UpToTrimmed(s: seq<Snapshot>, n: nat, cutoff: int)
    ensures |s| <= n ==> UpTo(LastN(s, n), cutoff) == UpTo(s, cutoff)
    ensures |s| > n ==> UpTo(LastN(s, n), cutoff) == if UpTo(s, cutoff) > |s| - n then UpTo(s, cutoff) - (|s| - n) else 0
    decreases |s|, n
  {
  }

  /** The bounded history answers what the full one would exactly when the full
      one's reference snapshot is among the kept ones, and otherwise fails: it is
      never wrong. */
  lemma DeltaNeverWrong(s: seq<Snapshot>, n: nat, cutoff: int)
    ensures DeltaOf(LastN(s, n), cutoff) == if UpTo(s, cutoff) > |s| - n then DeltaOf(s, cutoff) else None
  {
    hide UpTo;
    UpToTrimmed(s, n, cutoff);
    var m := UpTo(s, cutoff);
    if |s| > n && m > |s| - n {
      assert LastN(s, n)[m - (|s| - n) - 1] == s[m - 1];
    }
  }

  /** The delta is the change from the newest snapshot before the cutoff to the
      newest of all, in per cent of the former. */
  lemma DeltaIs(s: seq<Snapshot>, cutoff: int, k: nat)
    requires k < |s| && s[k].at < cutoff && forall j :: k < j < |s| ==> s[j].at >= cutoff
    ensures DeltaOf(s, cutoff).Some? <==> s[k].oi != 0.0
    ensures DeltaOf(s, cutoff).Some? ==> DeltaOf(s, cutoff).value * s[k].oi == (s[|s| - 1].oi - s[k].oi) * 100.0
  {
    UpToIs(s, cutoff, k);
    hide UpTo;
    if s[k].oi != 0.0 {
      var past, diff := s[k].oi, s[|s| - 1].oi - s[k].oi;
      assert diff / past * past == diff;
    }
  }

  lemma {:induction false} UpToIs(s: seq<Snapshot>, cutoff: int, k: nat)
    requires k < |s| && s[k].at < cutoff && forall j :: k < j < |s| ==> s[j].at >= cutoff
    ensures UpTo(s, cutoff) == k + 1
    decreases |s|
  {
    UpToLast(s, cutoff);
    if k < |s| - 1 {
      UpToIs(s[..|s| - 1], cutoff, k);
    }
  }

  lemma UpToLast(s: seq<Snapshot>, cutoff: int)
    requires s != []
    ensures UpTo(s, cutoff) == if s[|s| - 1].at < cutoff then |s| else UpTo(s[..|s| - 1], cutoff)
  {
  }

  const NO_SNAPSHOT: Snapshot := Snapshot(0.0, 0)

  method LastBefore(snaps: seq<Snapshot>, cutoff: int) returns (past: Snapshot)
    ensures var n := UpTo(snaps, cutoff); past == if n == 0 then NO_SNAPSHOT else snaps[n - 1]
  {
    hide UpTo;
    past := NO_SNAPSHOT;
    assert snaps[..|snaps|] == snaps;
    var i := |snaps| - 1;
    while i >= 0
      invariant -1 <= i < |snaps|
      invariant UpTo(snaps, cutoff) == UpTo(snaps[..i + 1], cutoff)
    {
      UpToLast(snaps[..i + 1], cutoff);
      assert snaps[..i + 1][..i] == snaps[..i];
      if snaps[i].at < cutoff {
        return snaps[i];
      }
      i := i - 1;
    }
  }

  class OIHistory {
    const maxSize: nat
    var snapshots: map<string, seq<Snapshot>>
    ghost var history: map<string, seq<Snapshot>>

    ghost predicate Valid()
      reads this
    {
      && snapshots.Keys == history.Keys
      && forall k :: k in snapshots ==> snapshots[k] == LastN(history[k], maxSize)
    }

    ghost function History(symbol: string): seq<Snapshot>
      reads this
    {
      if symbol in history then history[symbol] else []
    }

    constructor (maxSize: nat)
      ensures this.maxSize == maxSize && Valid() && history == map[]
    {
      this.maxSize, snapshots, history := maxSize, map[], map[];
    }

    method Add(symbol: string, oi: real, now: int)
      requires Valid()
      modifies this
      ensures Valid() && history == old(history)[symbol := old(History(symbol)) + [Snapshot(oi, now)]]
    {
      var snaps := if symbol in snapshots then snapshots[symbol] else [];
      snaps := snaps + [Snapshot(oi, now)];
      if |snaps| > maxSize {
        snaps := snaps[|snaps| - maxSize..];
      }
      ghost var full := History(symbol) + [Snapshot(oi, now)];
      assert snaps == LastN(full, maxSize) by {
        if 0 < maxSize < |History(symbol)| {
          AppendTrimmed(History(symbol), Snapshot(oi, now), maxSize);
        }
      }
      hide LastN;
      history := history[symbol := full];
      snapshots := snapshots[symbol := snaps];
    }

    method Purge(symbol: string)
      requires Valid()
      modifies this
      ensures Valid() && history == old(history) - {symbol}
    {
      snapshots := snapshots - {symbol};
      history := history - {symbol};
    }

    method Delta(symbol: string, window: int, now: int) returns (r: Option<real>)
      requires Valid()
      ensures r == DeltaOf(LastN(History(symbol), maxSize), now - window)
      ensures r.Some? ==> r == DeltaOf(History(symbol), now - window)
    {
      hide UpTo, LastN;
      assert |History(symbol)| == 0 ==> LastN(History(symbol), maxSize) == [] by { LastNShort(History(symbol), maxSize); }
      DeltaNeverWrong(History(symbol), maxSize, now - window);
      if symbol !in snapshots || |snapshots[symbol]| == 0 {
        return None;
      }
      var snaps, cutoff := snapshots[symbol], now - window;
      var current := snaps[|snaps| - 1];
      var past := LastBefore(snaps, cutoff);
      if past.oi == 0.0 {
        return None;
      }
      return Some(PercentChange(past.oi, current.oi));
    }
  }
}
