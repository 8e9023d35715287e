/** What holds between transactions in every reachable state of the exchange. */
module Invariant {
  import opened Wrappers
  import opened OrderBook
  import opened Ledger
  import opened LedgerFacts
  import opened SettleFacts
  import opened Settlement

  // ------------------------------------------------------- books and orders

  /** A resting entry stands for a live limit order and never for more than that order has left. */
  ghost predicate EntryOk(orders: map<OrderId, Order>, symbol: Symbol, side: Side, e: Entry) {
    && e.id in orders
    && var o := orders[e.id];
       && !Terminal(o.status) && o.orderType.LIMIT? && o.market == symbol && o.side == side
       && o.price == Some(e.price) && 0 < e.qty <= o.leaveQty
  }

  ghost predicate QueueEntriesOk(orders: map<OrderId, Order>, symbol: Symbol, side: Side, q: seq<Entry>) {
    forall e :: e in q ==> EntryOk(orders, symbol, side, e)
  }

  ghost predicate BookOk(orders: map<OrderId, Order>, symbol: Symbol, b: Book) {
    && WellFormed(b)
    && QueueEntriesOk(orders, symbol, Bid, b.bids)
    && QueueEntriesOk(orders, symbol, Ask, b.asks)
  }

  ghost predicate BooksOk(orders: map<OrderId, Order>, books: map<Symbol, Book>) {
    forall s :: s in books ==> BookOk(orders, s, books[s])
  }

  // ------------------------------------------------------------------ trades

  /** The part of an order row that never changes. */
  function Terms(o: Order): Order {
    o.(leaveQty := 0, filledQty := 0, status := OPEN)
  }

  predicate Accepts(o: Order, price: int) {
    Crosses(o.side, o.price, price)
  }

  /** A trade row records two opposite orders of its market, at the maker's price, within both limits. */
  ghost predicate TradeOk(ms: Markets, orders: map<OrderId, Order>, t: Trade) {
    && t.market in ms && t.makerOrderId in orders && t.takerOrderId in orders && t.makerOrderId != t.takerOrderId
    && t.quantity > 0 && t.price > 0
    && t.makerFee == t.quantity * ms[t.market].makerFeeBp && t.takerFee == t.quantity * ms[t.market].takerFeeBp
    && var maker := orders[t.makerOrderId]; var taker := orders[t.takerOrderId];
       && maker.market == t.market && taker.market == t.market
       && t.makerSide == maker.side && t.takerSide == taker.side && maker.side == taker.side.Opposite()
       && t.makerUserId == maker.userId && t.takerUserId == taker.userId
       && maker.price == Some(t.price) && Accepts(taker, t.price)
       && taker.commandId == Some(t.matchId.commandId)
  }

  ghost predicate TradesOk(ms: Markets, orders: map<OrderId, Order>, ts: seq<Trade>) {
    forall i :: 0 <= i < |ts| ==> TradeOk(ms, orders, ts[i])
  }

  /** Quantity an order has traded, as maker or as taker. */
  function TradedQty(ts: seq<Trade>, id: OrderId): int {
    if ts == [] then 0
    else
      var t := ts[|ts| - 1];
      TradedQty(ts[..|ts| - 1], id) + (if t.makerOrderId == id then t.quantity else 0) + (if t.takerOrderId == id then t.quantity else 0)
  }

  /** filledQty is exactly what the trade rows say. */
  ghost predicate FillsRecorded(orders: map<OrderId, Order>, ts: seq<Trade>) {
    forall id :: id in orders ==> orders[id].filledQty == TradedQty(ts, id)
  }

  ghost predicate MatchIdsUnique(ts: seq<Trade>) {
    forall i, j :: 0 <= i < j < |ts| ==> ts[i].matchId != ts[j].matchId
  }

  /** The trades of a command follow one another, numbered 0, 1, 2, ... */
  ghost predicate Numbered(ts: seq<Trade>) {
    forall i :: 0 <= i < |ts| && ts[i].matchId.idx > 0 ==>
      0 < i && ts[i - 1].matchId == MatchId(ts[i].matchId.commandId, ts[i].matchId.idx - 1)
  }

  // ------------------------------------------------------------------ outbox

  predicate IsTradeEvent(p: Payload) {
    p.TradeDone? || p.TakerNotice? || p.MakerNotice?
  }

  /** The events of trades in the outbox, in order. */
  function TradeLog(outbox: seq<Payload>): seq<Payload> {
    if outbox == [] then []
    else TradeLog(outbox[..|outbox| - 1]) + if IsTradeEvent(outbox[|outbox| - 1]) then [outbox[|outbox| - 1]] else []
  }

  /** A command names an existing order, its market and, for a SUBMIT, its command id. */
  ghost predicate CommandOk(orders: map<OrderId, Order>, c: Command) {
    && c.orderId in orders && orders[c.orderId].market == c.symbol
    && (c.Submit? ==> orders[c.orderId].commandId == Some(c.commandId))
  }

  ghost predicate OutboxOk(db: Db) {
    && TradeLog(db.outbox) == AllTradeEvents(db.trades)
    && (forall c :: CommandRow(c) in db.outbox ==> CommandOk(db.orders, c))
    && (forall id :: id in db.orders ==>
          db.orders[id].commandId.Some? && CommandRow(Submit(db.orders[id].commandId.value, id, db.orders[id].market)) in db.outbox)
  }

  ghost predicate CommandIdsUnique(orders: map<OrderId, Order>) {
    forall i, j :: i in orders && j in orders && orders[i].commandId.Some? && orders[i].commandId == orders[j].commandId ==> i == j
  }

  // --------------------------------------------------------------- the whole

  ghost predicate RecordsOk(ms: Markets, db: Db) {
    && TradesOk(ms, db.orders, db.trades) && FillsRecorded(db.orders, db.trades)
    && MatchIdsUnique(db.trades) && Numbered(db.trades)
    && OutboxOk(db) && CommandIdsUnique(db.orders)
    && (forall id :: id in db.orders ==> id < db.nextOrderId)
  }

  ghost predicate DbOk(ms: Markets, db: Db) {
    && MarketsOk(ms)
    && OrdersOk(ms, db.orders)
    && WalletsOk(db.wallets)
    && LocksMatch(ms, db.wallets, db.orders)
    && RecordsOk(ms, db)
  }

  ghost predicate Inv(ms: Markets, s: State) {
    DbOk(ms, s.db) && BooksOk(s.db.orders, s.books)
  }

  /** Orders keep their terms, never lose fills, and stay as they are once FILLED or CANCELLED. */
  ghost predicate Progress(before: map<OrderId, Order>, after: map<OrderId, Order>) {
    forall id :: id in before ==>
      && id in after && Terms(after[id]) == Terms(before[id])
      && before[id].filledQty <= after[id].filledQty
      && (Terminal(before[id].status) ==> after[id] == before[id])
  }

  // ------------------------------------------------------------ small lemmas

  lemma EmptyBookOk(orders: map<OrderId, Order>, symbol: Symbol)
    ensures BookOk(orders, symbol, EMPTY_BOOK)
  {
  }

  lemma BookOfOk(orders: map<OrderId, Order>, books: map<Symbol, Book>, symbol: Symbol)
    requires BooksOk(orders, books)
    ensures BookOk(orders, symbol, BookOf(books, symbol))
  {
    EmptyBookOk(orders, symbol);
  }

  lemma TradedQtyAppend(ts: seq<Trade>, t: Trade, id: OrderId)
    ensures TradedQty(ts + [t], id)
            == TradedQty(ts, id) + (if t.makerOrderId == id then t.quantity else 0) + (if t.takerOrderId == id then t.quantity else 0)
  {
    assert (ts + [t])[..|ts|] == ts;
  }

  lemma TradeLogAppend(outbox: seq<Payload>, p: Payload)
    ensures TradeLog(outbox + [p]) == TradeLog(outbox) + if IsTradeEvent(p) then [p] else []
  {
    assert (outbox + [p])[..|outbox|] == outbox;
  }

  lemma TradeLogOne(p: Payload)
    ensures TradeLog([p]) == if IsTradeEvent(p) then [p] else []
  {
    assert [p][..0] == [];
  }

  lemma {:induction false} TradeLogConcat(outbox: seq<Payload>, more: seq<Payload>)
    ensures TradeLog(outbox + more) == TradeLog(outbox) + TradeLog(more)
    decreases |more|
  {
    if more == [] {
      assert outbox + more == outbox;
    } else {
      var init, last := more[..|more| - 1], more[|more| - 1];
      assert outbox + more == (outbox + init) + [last] && more == init + [last];
      TradeLogConcat(outbox, init);
      TradeLogAppend(outbox + init, last);
      TradeLogAppend(init, last);
    }
  }

  /** The events of a batch of trades are trade events, all of them. */
  lemma {:induction false} TradeEventsLogged(ts: seq<Trade>)
    ensures TradeLog(AllTradeEvents(ts)) == AllTradeEvents(ts)
    decreases |ts|
  {
    if ts != [] {
      TradeEventsLogged(ts[1..]);
      TradeLogConcat(TradeEvents(ts[0]), AllTradeEvents(ts[1..]));
      var e := TradeEvents(ts[0]);
      TradeLogAppend([], e[0]);
      TradeLogAppend([e[0]], e[1]);
      TradeLogAppend([e[0], e[1]], e[2]);
      assert [] + [e[0]] == [e[0]] && [e[0]] + [e[1]] == [e[0], e[1]] && [e[0], e[1]] + [e[2]] == e;
    }
  }

  lemma ProgressTransitive(a: map<OrderId, Order>, b: map<OrderId, Order>, c: map<OrderId, Order>)
    requires Progress(a, b) && Progress(b, c)
    ensures Progress(a, c)
  {
  }

  /** Trade rows only look at the terms of their orders. */
  lemma TradesOkKept(ms: Markets, before: map<OrderId, Order>, after: map<OrderId, Order>, ts: seq<Trade>)
    requires TradesOk(ms, before, ts)
    requires forall id :: id in before ==> id in after && Terms(after[id]) == Terms(before[id])
    ensures TradesOk(ms, after, ts)
  {
  }
}
