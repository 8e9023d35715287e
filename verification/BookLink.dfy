/** The in-memory books against the order rows, while a command is settled. */
module BookLink {
  import opened Wrappers
  import opened OrderBook
  import opened Ledger
  import opened SettleFacts
  import opened Settlement
  import opened Invariant

  /** Each entry left after matching is an old entry less what it traded. */
  lemma MatchEntry(q: seq<Entry>, taker: Side, limit: Option<int>, want: int, x: Entry) returns (y: Entry)
    requires QueueOk(taker.Opposite(), q) && want >= 0
    requires x in Match(q, taker, limit, want).queue
    ensures y in q && y.id == x.id && y.price == x.price
    ensures 0 < x.qty == y.qty - Filled(Match(q, taker, limit, want).fills, x.id)
  {
    y := MatchMembers(q, taker, limit, want, x);
    var m := Match(q, taker, limit, want);
    MatchPerId(q, taker, limit, want, x.id);
    var i :| 0 <= i < |q| && q[i] == y;
    RestingAt(q, i);
    var n, part := MatchShape(q, taker, limit, want);
    CutOk(taker.Opposite(), q, m, n, part);
    var j :| 0 <= j < |m.queue| && m.queue[j] == x;
    RestingAt(m.queue, j);
  }

  lemma RestingEntry(q: seq<Entry>, id: nat) returns (e: Entry)
    requires Rests(q, id)
    ensures e in q && e.id == id
  {
    IndexOfFirst(q, id);
    e := q[IndexOf(q, id)];
  }

  /** The trades the book proposes are all good against the rows. */
  lemma MatchFillsGood(ms: Markets, m: Market, orders: map<OrderId, Order>, t: Taker, b: Book, want: int)
    requires TakerOk(ms, m, orders, t) && BookOk(orders, m.symbol, b) && want >= 0
    requires !InBook(b, t.id)
    ensures GoodFills(orders, t, Match(b.Queue(t.row.side.Opposite()), t.row.side, t.row.price, want).fills)
  {
    var opp := t.row.side.Opposite();
    var q := b.Queue(opp);
    var r := Match(q, t.row.side, t.row.price, want);
    var n, part := MatchShape(q, t.row.side, t.row.price, want);
    FillsAcceptable(q, t.row.side, t.row.price, want);
    forall i | 0 <= i < |r.fills| ensures GoodFill(orders, t, r.fills[i]) {
      assert r.fills[i] in r.fills;
      assert r.fills[i].makerId == q[i].id && r.fills[i].price == q[i].price && r.fills[i].qty <= q[i].qty;
      assert q[i] in q && EntryOk(orders, m.symbol, opp, q[i]);
      RestsMeans(q, t.id);
    }
    forall i, j | 0 <= i < j < |r.fills| ensures r.fills[i].makerId != r.fills[j].makerId {
      assert r.fills[i].makerId == q[i].id && r.fills[j].makerId == q[j].id;
    }
  }

  /** A MARKET order is never in a book. */
  lemma MarketOrderNotInBook(orders: map<OrderId, Order>, symbol: Symbol, b: Book, id: OrderId)
    requires BookOk(orders, symbol, b) && (id in orders ==> !orders[id].orderType.LIMIT? || Terminal(orders[id].status))
    ensures !InBook(b, id)
  {
    if Rests(b.bids, id) {
      var e := RestingEntry(b.bids, id);
    }
    if Rests(b.asks, id) {
      var e := RestingEntry(b.asks, id);
    }
  }

  /** The rows after settling `fills`: everyone but the taker changed exactly by what it traded. */
  ghost predicate OnlyTraded(before: map<OrderId, Order>, after: map<OrderId, Order>, taker: OrderId, fills: seq<Fill>) {
    forall id :: id in before && id != taker ==> id in after && after[id] == Traded(before[id], Filled(fills, id))
  }

  lemma UntouchedEntry(before: map<OrderId, Order>, after: map<OrderId, Order>, taker: OrderId, fills: seq<Fill>,
                       symbol: Symbol, side: Side, e: Entry)
    requires OnlyTraded(before, after, taker, fills) && EntryOk(before, symbol, side, e)
    requires e.id != taker && Filled(fills, e.id) == 0
    ensures EntryOk(after, symbol, side, e)
  {
  }

  /** Only entries of the queue that was walked trade. */
  lemma OthersDoNotTrade(before: map<OrderId, Order>, b: Book, symbol: Symbol, taker: Side, limit: Option<int>, want: int,
                         otherSymbol: Symbol, otherSide: Side, e: Entry)
    requires BookOk(before, symbol, b) && want >= 0
    requires EntryOk(before, otherSymbol, otherSide, e)
    requires otherSymbol != symbol || otherSide == taker
    ensures Filled(Match(b.Queue(taker.Opposite()), taker, limit, want).fills, e.id) == 0
  {
    var q := b.Queue(taker.Opposite());
    MatchPerId(q, taker, limit, want, e.id);
    if Filled(Match(q, taker, limit, want).fills, e.id) > 0 {
      var y := RestingEntry(q, e.id);
    }
  }

  /** After the trades are settled, what is left of the walked queue is still covered by the rows. */
  lemma WalkedQueueOk(before: map<OrderId, Order>, after: map<OrderId, Order>, b: Book, symbol: Symbol, t: Taker, limit: Option<int>, want: int)
    requires BookOk(before, symbol, b) && want >= 0 && !InBook(b, t.id)
    requires OnlyTraded(before, after, t.id, Match(b.Queue(t.row.side.Opposite()), t.row.side, limit, want).fills)
    ensures QueueEntriesOk(after, symbol, t.row.side.Opposite(), Match(b.Queue(t.row.side.Opposite()), t.row.side, limit, want).queue)
    ensures QueueEntriesOk(after, symbol, t.row.side, b.Queue(t.row.side))
  {
    var opp := t.row.side.Opposite();
    var q := b.Queue(opp);
    var m := Match(q, t.row.side, limit, want);
    forall x | x in m.queue ensures EntryOk(after, symbol, opp, x) {
      var y := MatchEntry(q, t.row.side, limit, want, x);
      assert EntryOk(before, symbol, opp, y);
      RestsMeans(q, t.id);
    }
    forall e | e in b.Queue(t.row.side) ensures EntryOk(after, symbol, t.row.side, e) {
      assert EntryOk(before, symbol, t.row.side, e);
      OthersDoNotTrade(before, b, symbol, t.row.side, limit, want, symbol, t.row.side, e);
      RestsMeans(b.Queue(t.row.side), t.id);
      UntouchedEntry(before, after, t.id, m.fills, symbol, t.row.side, e);
    }
  }

  /** The books of other markets are not touched. */
  lemma OtherBookOk(before: map<OrderId, Order>, after: map<OrderId, Order>, b: Book, symbol: Symbol, t: Taker, limit: Option<int>, want: int,
                    other: Symbol, c: Book)
    requires BookOk(before, symbol, b) && want >= 0
    requires OnlyTraded(before, after, t.id, Match(b.Queue(t.row.side.Opposite()), t.row.side, limit, want).fills)
    requires BookOk(before, other, c) && other != symbol
    requires t.id in before && before[t.id].market == symbol
    ensures BookOk(after, other, c)
  {
    var fills := Match(b.Queue(t.row.side.Opposite()), t.row.side, limit, want).fills;
    forall e | e in c.bids ensures EntryOk(after, other, Bid, e) {
      assert EntryOk(before, other, Bid, e);
      OthersDoNotTrade(before, b, symbol, t.row.side, limit, want, other, Bid, e);
      UntouchedEntry(before, after, t.id, fills, other, Bid, e);
    }
    forall e | e in c.asks ensures EntryOk(after, other, Ask, e) {
      assert EntryOk(before, other, Ask, e);
      OthersDoNotTrade(before, b, symbol, t.row.side, limit, want, other, Ask, e);
      UntouchedEntry(before, after, t.id, fills, other, Ask, e);
    }
  }

  // --------------------------------------------- the book after a limit order

  /** With the rows unchanged (an aborted transaction) the book still promises no more than they hold. */
  lemma AddKeepsBookOk(orders: map<OrderId, Order>, symbol: Symbol, b: Book, id: OrderId)
    requires BookOk(orders, symbol, b)
    requires id in orders && !Terminal(orders[id].status) && orders[id].orderType.LIMIT? && orders[id].price.Some?
    requires orders[id].market == symbol && orders[id].leaveQty > 0
    requires Add(b, id, orders[id].side, orders[id].price.value, orders[id].leaveQty).Added?
    ensures BookOk(orders, symbol, Add(b, id, orders[id].side, orders[id].price.value, orders[id].leaveQty).book)
  {
    var o := orders[id];
    var a := Add(b, id, o.side, o.price.value, o.leaveQty);
    AddKeepsWellFormed(b, id, o.side, o.price.value, o.leaveQty);
    var q := b.Queue(o.side.Opposite());
    var m := Match(q, o.side, o.price, o.leaveQty);
    forall x | x in m.queue ensures EntryOk(orders, symbol, o.side.Opposite(), x) {
      var y := MatchMembers(q, o.side, o.price, o.leaveQty, x);
      assert EntryOk(orders, symbol, o.side.Opposite(), y);
    }
    LeaveWithin(q, o.side, o.price, o.leaveQty);
    InsertMembers(o.side, b.Queue(o.side), Entry(id, o.price.value, m.leave));
  }

  /** No more is left than came in. */
  lemma LeaveWithin(q: seq<Entry>, side: Side, limit: Option<int>, want: int)
    requires Positive(q) && want >= 0
    ensures 0 <= Match(q, side, limit, want).leave <= want
    ensures 0 <= FillTotal(Match(q, side, limit, want).fills) <= want
  {
  }

  // ------------------------------------------- the book after (part of) a sweep

  /** A walk without inserting keeps the book covered by unchanged rows. */
  lemma WalkKeepsBookOk(orders: map<OrderId, Order>, symbol: Symbol, b: Book, side: Side, limit: Option<int>, want: int)
    requires BookOk(orders, symbol, b) && want >= 0
    ensures BookOk(orders, symbol, b.With(side.Opposite(), Match(b.Queue(side.Opposite()), side, limit, want).queue))
  {
    var opp := side.Opposite();
    var q := b.Queue(opp);
    var m := Match(q, side, limit, want);
    var n, part := MatchShape(q, side, limit, want);
    CutOk(opp, q, m, n, part);
    forall x | x in m.queue ensures EntryOk(orders, symbol, opp, x) {
      var y := MatchMembers(q, side, limit, want, x);
      assert EntryOk(orders, symbol, opp, y);
    }
    var c := b.With(opp, m.queue);
    forall i, j | 0 <= i < |c.bids| && 0 <= j < |c.asks|
      ensures c.bids[i].price < c.asks[j].price && c.bids[i].id != c.asks[j].id
    {
    }
  }

  lemma TopLevelsPrefix(q: seq<Entry>)
    ensures TopLevels(q) <= Levels(q)
  {
  }

  lemma CancelKeepsBookOk(orders: map<OrderId, Order>, symbol: Symbol, b: Book, id: OrderId)
    requires BookOk(orders, symbol, b)
    ensures BookOk(orders, symbol, CancelInBook(b, id)) && !InBook(CancelInBook(b, id), id)
    ensures forall x :: x in CancelInBook(b, id).bids ==> x in b.bids && x.id != id
    ensures forall x :: x in CancelInBook(b, id).asks ==> x in b.asks && x.id != id
  {
    RemoveOk(Bid, b.bids, id);
    RemoveOk(Ask, b.asks, id);
    if InBook(b, id) {
      CancelKeepsWellFormed(b, id);
    } else {
      RestsMeans(b.bids, id);
      RestsMeans(b.asks, id);
    }
  }
}
