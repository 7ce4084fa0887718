/** internal/execution/reconciler.go: bringing the cached positions in line with
    the exchange at startup. */
module Reconciler {
  import opened Options

  type Symbol = string
  type TradeId = nat
  const NIL_TRADE: TradeId := 0

  /** An order id string: empty, the decimal form of a number, or any other text.
      Exchange order ids are numbers; client ids are text the bot stores. */
  datatype Ident = NoId | Decimal(n: nat) | Text(t: nat)

  datatype Kind = StopMarket | Market | TakeProfit | Limit | OtherKind
  datatype OpenOrder = OpenOrder(
    symbol: Symbol, orderId: nat, clientId: Ident, buy: bool, reduceOnly: bool, kind: Kind, stopPrice: real)

  /** One row of the exchange's position list. */
  datatype Risk = Risk(symbol: Symbol, amount: real, entryPrice: real)

  datatype Position = Position(
    entryPrice: real, originalQty: real, stopLoss: real, takeProfit: real,
    slOrderId: Ident, tpOrderId: Ident, tradeId: TradeId)

  datatype Exit = Exit(symbol: Symbol, tradeId: TradeId, avgClose: real)

  datatype Placed = Placed(symbol: Symbol, kind: Kind, price: real, qty: real)

  datatype Config = Config(slPct: real, tpPct: real, tp1SizePct: real)

  const TOLERANCE: real := 0.001

  // ---------------------------------------------------------------- indexes

  /** The last row of a symbol with a non-zero amount. */
  function Book(rows: seq<Risk>): map<Symbol, Risk> {
    if rows == [] then map[]
    else
      var m, r := Book(rows[..|rows| - 1]), rows[|rows| - 1];
      if r.amount != 0.0 then m[r.symbol := r] else m
  }

  lemma {:induction false} BookHolds(rows: seq<Risk>)
    ensures forall s :: s in Book(rows) <==> exists r :: r in rows && r.symbol == s && r.amount != 0.0
    ensures forall s :: s in Book(rows) ==> Book(rows)[s] in rows && Book(rows)[s].symbol == s && Book(rows)[s].amount != 0.0
  {
    if rows != [] {
      var t, r := rows[..|rows| - 1], rows[|rows| - 1];
      assert forall x :: x in rows <==> x in t || x == r;
      BookHolds(t);
    }
  }

  method IndexPositions(rows: seq<Risk>) returns (m: map<Symbol, Risk>)
    ensures m == Book(rows)
  {
    m := map[];
    for i := 0 to |rows|
      invariant m == Book(rows[..i])
    {
      assert rows[..i + 1][..i] == rows[..i];
      if rows[i].amount != 0.0 {
        m := m[rows[i].symbol := rows[i]];
      }
    }
    assert rows[..|rows|] == rows;
  }

  function OrdersOf(orders: seq<OpenOrder>, s: Symbol): seq<OpenOrder> {
    if orders == [] then []
    else OrdersOf(orders[..|orders| - 1], s) + if orders[|orders| - 1].symbol == s then [orders[|orders| - 1]] else []
  }

  // ---------------------------------------------------------------- protection

  /** A live order whose decimal id is this string; the last one listed wins. */
  function FindLive(orders: seq<OpenOrder>, id: Ident): Option<OpenOrder> {
    if orders == [] then None
    else if id == Decimal(orders[|orders| - 1].orderId) then Some(orders[|orders| - 1])
    else FindLive(orders[..|orders| - 1], id)
  }

  function Abs(x: real): real { if x >= 0.0 then x else -x }

  predicate Drifted(price: real, stopPrice: real) {
    price > 0.0 && stopPrice > 0.0 && Abs(stopPrice - price) / price > TOLERANCE
  }

  predicate NeedsOrder(id: Ident, price: real, orders: seq<OpenOrder>) {
    id == NoId || FindLive(orders, id).None? || Drifted(price, FindLive(orders, id).value.stopPrice)
  }

  lemma {:induction false} FindLiveIsNumeric(orders: seq<OpenOrder>, id: Ident)
    ensures FindLive(orders, id).Some? <==> id.Decimal? && exists o :: o in orders && o.orderId == id.n
    ensures FindLive(orders, id).Some? ==> var o := FindLive(orders, id).value; o in orders && id == Decimal(o.orderId)
  {
    if orders != [] {
      FindLiveIsNumeric(orders[..|orders| - 1], id);
      assert forall x :: x in orders <==> x in orders[..|orders| - 1] || x == orders[|orders| - 1];
    }
  }

  predicate UniqueIds(orders: seq<OpenOrder>) {
    forall o, u :: o in orders && u in orders && o.orderId == u.orderId ==> o == u
  }

  /** The check indexes exchange numbers but is asked for client ids: an order the
      bot placed itself, stored under its client text, is never recognised, even
      while it rests.  An order is recognised exactly when the stored id is the
      number of a live order whose price has not drifted. */
  lemma RecognisedIff(id: Ident, price: real, orders: seq<OpenOrder>)
    requires UniqueIds(orders)
    ensures !NeedsOrder(id, price, orders)
       <==> exists o :: o in orders && id == Decimal(o.orderId) && !Drifted(price, o.stopPrice)
    ensures id.Text? ==> NeedsOrder(id, price, orders)
  {
    FindLiveIsNumeric(orders, id);
  }

  /** A price has drifted exactly when both are set and they differ by more than a
      thousandth of the cached one. */
  lemma DriftedIff(price: real, stopPrice: real)
    ensures Drifted(price, stopPrice)
       <==> price > 0.0 && stopPrice > 0.0
            && ((stopPrice - price) * 1000.0 > price || (price - stopPrice) * 1000.0 > price)
  {
    if price > 0.0 {
      var d := Abs(stopPrice - price);
      var x := d / price;
      assert x * price == d;
      if x > TOLERANCE {
        assert (x - TOLERANCE) * price > 0.0;
      } else {
        assert (TOLERANCE - x) * price >= 0.0;
      }
    }
  }

  /** A rehydrated short has its stop above and its take-profit below the entry. */
  lemma RehydratedSides(c: Config, r: Risk, p: Position)
    requires Rehydrated(c, r, p) && r.entryPrice > 0.0 && c.slPct > 0.0 && c.tpPct > 0.0
    ensures p.takeProfit < p.entryPrice < p.stopLoss
    ensures p.stopLoss == p.entryPrice * (1.0 + c.slPct / 100.0) && p.takeProfit == p.entryPrice * (1.0 - c.tpPct / 100.0)
  {
    assert r.entryPrice * (c.slPct / 100.0) > 0.0 && r.entryPrice * (c.tpPct / 100.0) > 0.0;
  }

  predicate Closing(o: OpenOrder) { o.reduceOnly && o.buy }

  /** What rehydration takes for the stop: a LIMIT or MARKET order counts too. */
  predicate TakenForStop(o: OpenOrder) {
    Closing(o) && (o.kind == StopMarket || o.kind == Market || o.kind == Limit)
  }

  predicate TakenForTP(o: OpenOrder) {
    Closing(o) && o.kind == TakeProfit
  }

  /** Alone on the book, an order is taken for the stop exactly when it is a
      reduce-only BUY of type STOP_MARKET, MARKET or LIMIT, and for the take-profit
      when it is one of type TAKE_PROFIT. */
  lemma TakenIff(o: OpenOrder)
    requires o.clientId != NoId
    ensures LastTaken([o], STOPS) == (if o.reduceOnly && o.buy && o.kind in {StopMarket, Market, Limit} then o.clientId else NoId)
    ensures LastTaken([o], TPS) == (if o.reduceOnly && o.buy && o.kind == TakeProfit then o.clientId else NoId)
  {
    assert [o][..0] == [];
  }

  predicate NamedIds(orders: seq<OpenOrder>) {
    forall o :: o in orders ==> o.clientId != NoId
  }

  /** The client id of the last order taken, if any. */
  function LastTaken(orders: seq<OpenOrder>, taken: OpenOrder -> bool): Ident {
    if orders == [] then NoId
    else if taken(orders[|orders| - 1]) then orders[|orders| - 1].clientId
    else LastTaken(orders[..|orders| - 1], taken)
  }

  const STOPS: OpenOrder -> bool := (o: OpenOrder) => TakenForStop(o)
  const TPS: OpenOrder -> bool := (o: OpenOrder) => TakenForTP(o)

  method ScanLiveOrders(orders: seq<OpenOrder>) returns (sl: Ident, tp: Ident)
    requires NamedIds(orders)
    ensures sl == LastTaken(orders, STOPS) && tp == LastTaken(orders, TPS)
    ensures sl == NoId <==> forall o :: o in orders ==> !TakenForStop(o)
    ensures tp == NoId <==> forall o :: o in orders ==> !TakenForTP(o)
    ensures sl != NoId ==> exists o :: o in orders && TakenForStop(o) && o.clientId == sl
    ensures tp != NoId ==> exists o :: o in orders && TakenForTP(o) && o.clientId == tp
  {
    sl, tp := NoId, NoId;
    for i := 0 to |orders|
      invariant sl == LastTaken(orders[..i], STOPS) && tp == LastTaken(orders[..i], TPS)
      invariant sl == NoId <==> forall o :: o in orders[..i] ==> !TakenForStop(o)
      invariant tp == NoId <==> forall o :: o in orders[..i] ==> !TakenForTP(o)
      invariant sl != NoId ==> exists o :: o in orders && TakenForStop(o) && o.clientId == sl
      invariant tp != NoId ==> exists o :: o in orders && TakenForTP(o) && o.clientId == tp
    {
      var o := orders[i];
      assert orders[..i + 1][..i] == orders[..i];
      assert forall x :: x in orders[..i + 1] <==> x in orders[..i] || x == o;
      assert o in orders && o.clientId != NoId && o in orders[..i + 1];
      if o.reduceOnly && o.buy {
        match o.kind {
          case StopMarket => sl := o.clientId;
          case Market => sl := o.clientId;
          case TakeProfit => tp := o.clientId;
          case Limit => sl := o.clientId;
          case OtherKind =>
        }
      }
    }
    assert orders[..|orders|] == orders;
  }

  // ---------------------------------------------------------------- reconciliation

  /** The symbols that must be cached afterwards. */
  function Expected(cached: set<Symbol>, book: map<Symbol, Risk>): set<Symbol> {
    set s | s in book && (s in cached || book[s].amount < 0.0)
  }

  function ManualExit(s: Symbol, p: Position): Exit {
    Exit(s, p.tradeId, p.entryPrice)
  }

  /** The positions removed from the cache that have a trade record. */
  function Removed(cached: map<Symbol, Position>, book: map<Symbol, Risk>): set<Symbol> {
    set s | s in cached && s !in book && cached[s].tradeId != NIL_TRADE
  }

  predicate DistinctSymbols(exits: seq<Exit>) {
    forall i, j :: 0 <= i < j < |exits| ==> exits[i].symbol != exits[j].symbol
  }

  /** One MANUAL result for exactly the positions in `of`. */
  predicate ManualResults(exits: seq<Exit>, of: set<Symbol>, cached: map<Symbol, Position>)
    requires of <= cached.Keys
  {
    && DistinctSymbols(exits)
    && (forall e :: e in exits ==> e.symbol in of && e == ManualExit(e.symbol, cached[e.symbol]))
    && (forall s :: s in of ==> ManualExit(s, cached[s]) in exits)
  }

  /** Only the order ids of a kept position may change. */
  predicate Kept(p: Position, q: Position) {
    q == p.(slOrderId := q.slOrderId, tpOrderId := q.tpOrderId)
  }

  /** What a kept position's orders became when every placement succeeds: a
      recognised order stays, any other is placed anew at the cached price. */
  predicate Reprotected(s: Symbol, p: Position, q: Position, orders: seq<OpenOrder>, placed: seq<Placed>) {
    && (if NeedsOrder(p.slOrderId, p.stopLoss, orders)
        then q.slOrderId.Text? && Placed(s, StopMarket, p.stopLoss, 0.0) in placed
        else q.slOrderId == p.slOrderId)
    && (if NeedsOrder(p.tpOrderId, p.takeProfit, orders)
        then q.tpOrderId.Text? && Placed(s, Limit, p.takeProfit, p.originalQty) in placed
        else q.tpOrderId == p.tpOrderId)
  }

  function TP1Qty(c: Config, qty: real): (r: real)
    ensures r * 100.0 == qty * c.tp1SizePct
  {
    var share := c.tp1SizePct / 100.0;
    assert share * 100.0 == c.tp1SizePct;
    qty * share
  }

  predicate Rehydrated(c: Config, r: Risk, p: Position) {
    && p.entryPrice == r.entryPrice
    && p.originalQty == -r.amount
    && p.stopLoss == r.entryPrice + r.entryPrice * (c.slPct / 100.0)
    && p.takeProfit == r.entryPrice - r.entryPrice * (c.tpPct / 100.0)
    && p.tradeId != NIL_TRADE
  }

  /** The first pass with the symbols in `rest` still to come. */
  ghost predicate HeldSoFar(c: Config, was: map<Symbol, Position>, now: map<Symbol, Position>, placed: seq<Placed>,
                            book: map<Symbol, Risk>, orders: seq<OpenOrder>, rest: set<Symbol>, allPlaced: bool) {
    && now.Keys == was.Keys + (Expected(was.Keys, book) - rest)
    && (forall s :: s in was ==> Kept(was[s], now[s]))
    && (forall s :: s in was && (s !in book || s in rest) ==> now[s] == was[s])
    && (forall s :: s in now && s !in was ==> Rehydrated(c, book[s], now[s]))
    && (allPlaced ==> forall s :: s in was && s in book && s !in rest ==>
                                    Reprotected(s, was[s], now[s], OrdersOf(orders, s), placed))
  }

  /** What handling one held symbol does to the cache and the placed orders. */
  ghost predicate HandledOne(c: Config, was: map<Symbol, Position>, now: map<Symbol, Position>, placed: seq<Placed>,
                             r: Risk, mine: seq<OpenOrder>, s: Symbol, allPlaced: bool) {
    && (forall k :: k in was && k != s ==> k in now && now[k] == was[k])
    && now.Keys == (if s in was || r.amount < 0.0 then was.Keys + {s} else was.Keys)
    && (s in was ==> Kept(was[s], now[s]) && (allPlaced ==> Reprotected(s, was[s], now[s], mine, placed)))
    && (s !in was && s in now ==> Rehydrated(c, r, now[s]))
  }

  lemma NoneHeldYet(c: Config, m: map<Symbol, Position>, placed: seq<Placed>, book: map<Symbol, Risk>,
                    orders: seq<OpenOrder>, allPlaced: bool)
    ensures HeldSoFar(c, m, m, placed, book, orders, book.Keys, allPlaced)
  {
  }

  lemma OneMoreHeld(c: Config, was: map<Symbol, Position>, mid: map<Symbol, Position>, before: seq<Placed>,
                    now: map<Symbol, Position>, placed: seq<Placed>, book: map<Symbol, Risk>, orders: seq<OpenOrder>,
                    rest: set<Symbol>, s: Symbol, allPlaced: bool)
    requires rest <= book.Keys && s in rest && before <= placed
    requires HeldSoFar(c, was, mid, before, book, orders, rest, allPlaced)
    requires HandledOne(c, mid, now, placed, book[s], OrdersOf(orders, s), s, allPlaced)
    ensures HeldSoFar(c, was, now, placed, book, orders, rest - {s}, allPlaced)
  {
  }

  lemma AllHeld(c: Config, was: map<Symbol, Position>, now: map<Symbol, Position>, placed: seq<Placed>,
                book: map<Symbol, Risk>, orders: seq<OpenOrder>, allPlaced: bool)
    requires HeldSoFar(c, was, now, placed, book, orders, {}, allPlaced)
    ensures now.Keys == was.Keys + Expected(was.Keys, book)
    ensures forall s :: s in was ==> Kept(was[s], now[s])
    ensures forall s :: s in now && s !in was ==> Rehydrated(c, book[s], now[s])
    ensures forall s :: s in was && s !in book ==> now[s] == was[s]
    ensures allPlaced ==> forall s :: s in was && s in book ==> Reprotected(s, was[s], now[s], OrdersOf(orders, s), placed)
  {
    hide Reprotected, Rehydrated, OrdersOf;
  }

  class Reconciler {
    const cfg: Config
    const failing: set<nat>
    var calls: nat
    var placed: seq<Placed>
    var cancelled: seq<Ident>
    var cache: map<Symbol, Position>
    var results: seq<Exit>

    constructor (cfg: Config, failing: set<nat>, cache: map<Symbol, Position>)
      ensures this.cfg == cfg && this.failing == failing && this.cache == cache
      ensures calls == 0 && placed == [] && cancelled == [] && results == []
    {
      this.cfg, this.failing, this.cache := cfg, failing, cache;
      calls, placed, cancelled, results := 0, [], [], [];
    }

    /** The id placement call number n returns, and what it puts on the book. */
    function Answer(n: nat): Ident { if n in failing then NoId else Text(n) }
    function Sent(n: nat, o: Placed): seq<Placed> { if n in failing then [] else [o] }

    method Place(o: Placed) returns (id: Option<Ident>)
      modifies this`calls, this`placed
      ensures calls == old(calls) + 1
      ensures id == if old(calls) in failing then None else Some(Text(old(calls)))
      ensures placed == if old(calls) in failing then old(placed) else old(placed) + [o]
    {
      if calls in failing {
        id := None;
      } else {
        id, placed := Some(Text(calls)), placed + [o];
      }
      calls := calls + 1;
    }

    /** A position only the exchange knows: cached anew unless it is not a short. */
    method RehydratePosition(s: Symbol, r: Risk, orders: seq<OpenOrder>) returns (ok: bool)
      requires NamedIds(orders)
      modifies this`calls, this`placed, this`cache
      ensures ok <==> r.amount < 0.0
      ensures !ok ==> cache == old(cache) && placed == old(placed)
      ensures ok ==> cache.Keys == old(cache.Keys) + {s} && Rehydrated(cfg, r, cache[s])
                     && forall k :: k in old(cache) && k != s ==> cache[k] == old(cache)[k]
      ensures ok ==> var sl, tp := LastTaken(orders, STOPS), LastTaken(orders, TPS);
                     var k := old(calls) + if sl == NoId then 1 else 0;
                     && cache[s].slOrderId == (if sl == NoId then Answer(old(calls)) else sl)
                     && cache[s].tpOrderId == (if tp == NoId then Answer(k) else tp)
                     && placed == old(placed)
                                  + (if sl == NoId then Sent(old(calls), Placed(s, StopMarket, cache[s].stopLoss, 0.0)) else [])
                                  + (if tp == NoId
                                     then Sent(k, Placed(s, Limit, cache[s].takeProfit, TP1Qty(cfg, cache[s].originalQty)))
                                     else [])
      ensures ok ==> ((forall o :: o in orders ==> !TakenForStop(o)) <==> LastTaken(orders, STOPS) == NoId)
    {
      var qty := -r.amount;
      if qty <= 0.0 {
        return false;
      }
      var stopLoss := r.entryPrice + r.entryPrice * (cfg.slPct / 100.0);
      var takeProfit := r.entryPrice - r.entryPrice * (cfg.tpPct / 100.0);
      var sl, tp := ScanLiveOrders(orders);
      if sl == NoId {
        var id := Place(Placed(s, StopMarket, stopLoss, 0.0));
        sl := id.GetOr(NoId);
      }
      if tp == NoId {
        var id := Place(Placed(s, Limit, takeProfit, TP1Qty(cfg, qty)));
        tp := id.GetOr(NoId);
      }
      cache := cache[s := Position(r.entryPrice, qty, stopLoss, takeProfit, sl, tp, calls + 1)];
      return true;
    }

    /** A failed placement ends the repair and leaves the cache as it was, so a
        stop placed before a failing take-profit rests without being cached. */
    method ReplaceMissingOrders(s: Symbol, p: Position, needsSL: bool, needsTP: bool, orders: seq<OpenOrder>) returns (ok: bool)
      requires s in cache && cache[s] == p
      modifies this`calls, this`placed, this`cancelled, this`cache
      ensures var k := old(calls) + if needsSL then 1 else 0;
              var stopOk := needsSL ==> old(calls) !in failing;
              && ok == (stopOk && (needsTP ==> k !in failing))
              && cache == (if ok
                           then old(cache)[s := p.(slOrderId := if needsSL then Text(old(calls)) else p.slOrderId,
                                                   tpOrderId := if needsTP then Text(k) else p.tpOrderId)]
                           else old(cache))
              && placed == old(placed)
                           + (if needsSL then Sent(old(calls), Placed(s, StopMarket, p.stopLoss, 0.0)) else [])
                           + (if stopOk && needsTP then Sent(k, Placed(s, Limit, p.takeProfit, p.originalQty)) else [])
              && cancelled == old(cancelled)
                              + (if needsSL && FindLive(orders, p.slOrderId).Some? then [p.slOrderId] else [])
                              + (if stopOk && needsTP && FindLive(orders, p.tpOrderId).Some? then [p.tpOrderId] else [])
    {
      var q := p;
      if needsSL {
        if FindLive(orders, p.slOrderId).Some? {
          cancelled := cancelled + [p.slOrderId];
        }
        var id := Place(Placed(s, StopMarket, p.stopLoss, 0.0));
        if id.None? {
          return false;
        }
        q := q.(slOrderId := id.value);
      }
      if needsTP {
        if FindLive(orders, p.tpOrderId).Some? {
          cancelled := cancelled + [p.tpOrderId];
        }
        var id := Place(Placed(s, Limit, p.takeProfit, p.originalQty));
        if id.None? {
          return false;
        }
        q := q.(tpOrderId := id.value);
      }
      cache := cache[s := q];
      return true;
    }

    method CleanupStalePosition(s: Symbol, p: Position)
      modifies this`cache, this`results
      ensures cache == old(cache) - {s}
      ensures results == if p.tradeId == NIL_TRADE then old(results) else old(results) + [ManualExit(s, p)]
    {
      cache := cache - {s};
      if p.tradeId != NIL_TRADE {
        results := results + [Exit(s, p.tradeId, p.entryPrice)];
      }
    }

    /** One symbol the exchange holds: cached or not. */
    method ReconcileOne(s: Symbol, r: Risk, mine: seq<OpenOrder>)
      requires NamedIds(mine)
      modifies this`calls, this`placed, this`cancelled, this`cache
      ensures old(placed) <= placed
      ensures HandledOne(cfg, old(cache), cache, placed, r, mine, s, failing == {})
    {
      hide Reprotected, Rehydrated, NeedsOrder;
      if s !in cache {
        var _ := RehydratePosition(s, r, mine);
        return;
      }
      var p := cache[s];
      var needsSL, needsTP := NeedsOrder(p.slOrderId, p.stopLoss, mine), NeedsOrder(p.tpOrderId, p.takeProfit, mine);
      if needsSL || needsTP {
        var ok := ReplaceMissingOrders(s, p, needsSL, needsTP, mine);
        if failing == {} {
          ReplacedReprotects(s, p, cache[s], mine, old(placed), placed, old(calls));
        }
      } else {
        NothingNeeded(s, p, mine, placed);
      }
    }

    /** First pass: every symbol the exchange holds, in any order. */
    method ReconcileHeld(book: map<Symbol, Risk>, orders: seq<OpenOrder>)
      requires NamedIds(orders)
      modifies this`calls, this`placed, this`cancelled, this`cache
      ensures cache.Keys == old(cache.Keys) + Expected(old(cache.Keys), book)
      ensures forall s :: s in old(cache) ==> Kept(old(cache)[s], cache[s])
      ensures forall s :: s in cache && s !in old(cache) ==> Rehydrated(cfg, book[s], cache[s])
      ensures forall s :: s in old(cache) && s !in book ==> cache[s] == old(cache)[s]
      ensures old(placed) <= placed
      ensures failing == {} ==> forall s :: s in old(cache) && s in book ==>
                                              Reprotected(s, old(cache)[s], cache[s], OrdersOf(orders, s), placed)
    {
      hide HeldSoFar;
      var rest := book.Keys;
      NoneHeldYet(cfg, cache, placed, book, orders, failing == {});
      while rest != {}
        invariant rest <= book.Keys && old(placed) <= placed
        invariant HeldSoFar(cfg, old(cache), cache, placed, book, orders, rest, failing == {})
        decreases rest
      {
        var s :| s in rest;
        var mine := OrdersOf(orders, s);
        OrdersOfNamed(orders, s);
        ghost var before, cacheBefore := placed, cache;
        ReconcileOne(s, book[s], mine);
        OneMoreHeld(cfg, old(cache), cacheBefore, before, cache, placed, book, orders, rest, s, failing == {});
        rest := rest - {s};
      }
      AllHeld(cfg, old(cache), cache, placed, book, orders, failing == {});
    }

    /** Second pass: cached symbols the exchange does not hold, in any order.
        `cached` is the copy of the cache read before the first pass. */
    method CleanupStale(cached: map<Symbol, Position>, book: map<Symbol, Risk>)
      requires cached.Keys <= cache.Keys
      modifies this`cache, this`results
      ensures cache == old(cache) - (cached.Keys - book.Keys)
      ensures old(results) <= results && ManualResults(results[|old(results)|..], Removed(cached, book), cached)
    {
      var rest := cached.Keys - book.Keys;
      ghost var added: seq<Exit> := [];
      while rest != {}
        invariant rest <= cached.Keys - book.Keys
        invariant cache == old(cache) - (cached.Keys - book.Keys - rest)
        invariant results == old(results) + added
        invariant ManualResults(added, Removed(cached, book) - rest, cached)
        decreases rest
      {
        var s :| s in rest;
        ghost var done := Removed(cached, book) - rest;
        CleanupStalePosition(s, cached[s]);
        if cached[s].tradeId != NIL_TRADE {
          OneMoreResult(added, done, cached, s);
          added := added + [ManualExit(s, cached[s])];
        }
        rest := rest - {s};
        assert Removed(cached, book) - rest == if cached[s].tradeId != NIL_TRADE then done + {s} else done;
      }
      assert results[|old(results)|..] == added;
    }

    /** The whole of Reconcile once both exchange reads and the cache read
        succeeded: whatever placements fail and in whatever order the maps are
        walked. */
    method Reconcile(rows: seq<Risk>, orders: seq<OpenOrder>)
      requires NamedIds(orders)
      modifies this
      ensures cache.Keys == Expected(old(cache.Keys), Book(rows))
      ensures forall s :: s in cache && s in old(cache) ==> Kept(old(cache)[s], cache[s])
      ensures forall s :: s in cache && s !in old(cache) ==> Rehydrated(cfg, Book(rows)[s], cache[s])
      ensures old(results) <= results
      ensures ManualResults(results[|old(results)|..], Removed(old(cache), Book(rows)), old(cache))
      ensures failing == {} ==> forall s :: s in old(cache) && s in cache ==>
                                              Reprotected(s, old(cache)[s], cache[s], OrdersOf(orders, s), placed)
    {
      hide Reprotected, Rehydrated, Book;
      var book := IndexPositions(rows);
      var cached := cache;
      ReconcileHeld(book, orders);
      CleanupStale(cached, book);
    }
  }

  lemma ReplacedReprotects(s: Symbol, p: Position, q: Position, orders: seq<OpenOrder>, before: seq<Placed>,
                           placed: seq<Placed>, n: nat)
    requires var needsSL, needsTP := NeedsOrder(p.slOrderId, p.stopLoss, orders), NeedsOrder(p.tpOrderId, p.takeProfit, orders);
             var k := n + if needsSL then 1 else 0;
             && q == p.(slOrderId := if needsSL then Text(n) else p.slOrderId, tpOrderId := if needsTP then Text(k) else p.tpOrderId)
             && placed == before + (if needsSL then [Placed(s, StopMarket, p.stopLoss, 0.0)] else [])
                                 + (if needsTP then [Placed(s, Limit, p.takeProfit, p.originalQty)] else [])
    ensures Reprotected(s, p, q, orders, placed)
  {
  }

  lemma NothingNeeded(s: Symbol, p: Position, orders: seq<OpenOrder>, placed: seq<Placed>)
    requires !NeedsOrder(p.slOrderId, p.stopLoss, orders) && !NeedsOrder(p.tpOrderId, p.takeProfit, orders)
    ensures Reprotected(s, p, p, orders, placed)
  {
  }

  lemma {:induction false} OrdersOfNamed(orders: seq<OpenOrder>, s: Symbol)
    ensures forall o :: o in OrdersOf(orders, s) <==> o in orders && o.symbol == s
  {
    if orders != [] {
      OrdersOfNamed(orders[..|orders| - 1], s);
      assert forall x :: x in orders <==> x in orders[..|orders| - 1] || x == orders[|orders| - 1];
    }
  }

  lemma OneMoreResult(exits: seq<Exit>, of: set<Symbol>, cached: map<Symbol, Position>, s: Symbol)
    requires of <= cached.Keys && s in cached && s !in of
    requires ManualResults(exits, of, cached)
    ensures ManualResults(exits + [ManualExit(s, cached[s])], of + {s}, cached)
  {
  }
}
