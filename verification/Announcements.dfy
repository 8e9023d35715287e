/** What the outbox tells the outside: every event names the right order, user and figures. */
module Announcements {
  import opened OrderBook
  import opened Ledger
  import opened SettleFacts
  import opened Settlement
  import opened Invariant
  import opened Exchange
  import CommandRows

  lemma {:induction false} InTradeLog(outbox: seq<Payload>, e: Payload)
    ensures e in TradeLog(outbox) <==> e in outbox && IsTradeEvent(e)
    decreases |outbox|
  {
    if outbox != [] {
      InTradeLog(outbox[..|outbox| - 1], e);
      assert outbox == outbox[..|outbox| - 1] + [outbox[|outbox| - 1]];
    }
  }

  lemma {:induction false} InTradeEvents(ts: seq<Trade>, e: Payload)
    ensures e in AllTradeEvents(ts) <==> exists i :: 0 <= i < |ts| && e in TradeEvents(ts[i])
    decreases |ts|
  {
    if ts != [] {
      InTradeEvents(ts[1..], e);
      if e in TradeEvents(ts[0]) {
        assert e in AllTradeEvents(ts);
      }
      if i :| 0 <= i < |ts[1..]| && e in TradeEvents(ts[1..][i]) {
        assert ts[i + 1] == ts[1..][i];
      }
      if i :| 0 <= i < |ts| && e in TradeEvents(ts[i]) {
        if i > 0 {
          assert ts[1..][i - 1] == ts[i];
        }
      }
    }
  }

  /** The owner of an order of the trade. */
  predicate Owns(orders: map<OrderId, Order>, user: UserId, id: OrderId) {
    id in orders && orders[id].userId == user
  }

  /** The trade behind an event: its figures, or one of its orders with the user who placed it. */
  predicate Tells(orders: map<OrderId, Order>, t: Trade, e: Payload) {
    match e
    case TradeDone(id, price, quantity) => t.matchId == id && t.price == price && t.quantity == quantity
    case TakerNotice(id, user, order) => t.matchId == id && t.takerOrderId == order && Owns(orders, user, order)
    case MakerNotice(id, user, order) => t.matchId == id && t.makerOrderId == order && Owns(orders, user, order)
    case _ => false
  }

  /**
   In every reachable state a trade event in the outbox tells of a recorded
   trade, and a notice names an order of that trade, the taker's or the maker's,
   and the user who placed it; and every trade has its three events.
   */
  lemma TradeEventsTell(ms: Markets, s: State, actions: seq<Action>)
    requires Initial(ms, s)
    ensures var r := Run(ms, s, actions).db;
            forall e :: e in r.outbox && IsTradeEvent(e) ==> exists i :: 0 <= i < |r.trades| && Tells(r.orders, r.trades[i], e)
    ensures var r := Run(ms, s, actions).db;
            forall i :: 0 <= i < |r.trades| ==> Told(r, r.trades[i])
  {
    InitialInv(ms, s);
    RunKeepsAll(ms, s, actions);
    hide Run, TradeLog, AllTradeEvents, Owns, Tells, TradesOk, BooksOk, LocksMatch, OrdersOk;
    var r := Run(ms, s, actions).db;
    forall e | e in r.outbox && IsTradeEvent(e) ensures exists i :: 0 <= i < |r.trades| && Tells(r.orders, r.trades[i], e) {
      EventTells(ms, r, e);
    }
    forall i | 0 <= i < |r.trades| ensures Told(r, r.trades[i]) {
      TradeTold(ms, r, i);
    }
  }

  /** The three events of a trade are out, each to its party. */
  predicate Told(db: Db, t: Trade) {
    && TradeDone(t.matchId, t.price, t.quantity) in db.outbox
    && Owns(db.orders, t.takerUserId, t.takerOrderId) && TakerNotice(t.matchId, t.takerUserId, t.takerOrderId) in db.outbox
    && Owns(db.orders, t.makerUserId, t.makerOrderId) && MakerNotice(t.matchId, t.makerUserId, t.makerOrderId) in db.outbox
  }

  lemma EventTells(ms: Markets, db: Db, e: Payload)
    requires RecordsOk(ms, db) && e in db.outbox && IsTradeEvent(e)
    ensures exists i :: 0 <= i < |db.trades| && Tells(db.orders, db.trades[i], e)
  {
    hide TradeLog, AllTradeEvents, TradesOk, FillsRecorded, MatchIdsUnique, Numbered;
    InTradeLog(db.outbox, e);
    InTradeEvents(db.trades, e);
    var i :| 0 <= i < |db.trades| && e in TradeEvents(db.trades[i]);
    PartiesOwn(ms, db, i);
    assert Tells(db.orders, db.trades[i], e);
  }

  lemma TradeTold(ms: Markets, db: Db, i: nat)
    requires RecordsOk(ms, db) && i < |db.trades|
    ensures Told(db, db.trades[i])
  {
    hide TradeLog, AllTradeEvents, TradesOk, FillsRecorded, MatchIdsUnique, Numbered;
    PartiesOwn(ms, db, i);
    var t := db.trades[i];
    forall e | e in TradeEvents(t) ensures e in db.outbox {
      InTradeEvents(db.trades, e);
      InTradeLog(db.outbox, e);
    }
    assert TradeDone(t.matchId, t.price, t.quantity) in TradeEvents(t);
    assert TakerNotice(t.matchId, t.takerUserId, t.takerOrderId) in TradeEvents(t);
    assert MakerNotice(t.matchId, t.makerUserId, t.makerOrderId) in TradeEvents(t);
  }

  lemma PartiesOwn(ms: Markets, db: Db, i: nat)
    requires RecordsOk(ms, db) && i < |db.trades|
    ensures Owns(db.orders, db.trades[i].takerUserId, db.trades[i].takerOrderId)
    ensures Owns(db.orders, db.trades[i].makerUserId, db.trades[i].makerOrderId)
  {
    assert TradeOk(ms, db.orders, db.trades[i]);
  }

  /** A committed SUBMIT first announces the order as its row now stands. */
  lemma SubmitAnnounces(ms: Markets, s: State, c: Command)
    requires Inv(ms, s) && Published(s.db, c) && c.Submit? && Deliver(ms, s, c).outcome == Committed
    ensures var before, after := s.db.outbox, Deliver(ms, s, c).state.db;
            && |after.outbox| > |before| && after.outbox[..|before|] == before && c.orderId in after.orders
            && var o := after.orders[c.orderId];
               after.outbox[|before|] == OrderAdded(c.orderId, o.leaveQty, o.filledQty, o.status)
  {
    hide Add, SettleFills, SweepLevels, AllTradeEvents, Snapshot, MarketLevels, Inv;
    SubmitKeepsOutbox(ms, s, c);
  }

  lemma SubmitKeepsOutbox(ms: Markets, s: State, c: Command)
    requires c.Submit? && SubmitTarget(ms, s.db, c).Some?
    ensures SettleSubmit(ms, s, c).outcome == Committed ==>
              var before, after := s.db.outbox, SettleSubmit(ms, s, c).state.db;
              && |after.outbox| > |before| && after.outbox[..|before|] == before && c.orderId in after.orders
              && after.outbox[|before|] == OrderAdded(c.orderId, after.orders[c.orderId].leaveQty, after.orders[c.orderId].filledQty,
                                                      after.orders[c.orderId].status)
  {
    hide Add, SettleFills, SweepLevels, AllTradeEvents, Snapshot, MarketLevels;
    var t := SubmitTarget(ms, s.db, c).value;
    var m, book := ms[c.symbol], BookOf(s.books, c.symbol);
    if t.row.orderType.LIMIT? {
      if t.row.price.Some? {
        var a := Add(book, t.id, t.row.side, t.row.price.value, t.row.leaveQty);
        if a.Added? {
          CommandRows.SettleFillsOutbox(s.db, m, t, a.fills, c.commandId, 0);
        }
      }
    } else {
      CommandRows.SweepOutbox(s.db, book, m, t, MarketLevels(book, t.row.side), 0, t.row.quantity, c.commandId, 0);
    }
  }

  /** A committed CANCEL announces the order's row, then tells its owner, then shows the book. */
  lemma CancelAnnounces(ms: Markets, s: State, c: Command)
    requires c.CancelOrder? && SettleCancel(ms, s, c).outcome == Committed
    ensures c.orderId in s.db.orders
    ensures var before, after := s.db.outbox, SettleCancel(ms, s, c).state.db.outbox;
            var o := s.db.orders[c.orderId];
            && |after| == |before| + 3 && after[..|before|] == before
            && after[|before|] == OrderCancelled(c.orderId, o.leaveQty, o.filledQty)
            && after[|before| + 1] == CancelNotice(o.userId, c.orderId)
            && after[|before| + 2].BookSnapshot? && after[|before| + 2].market == o.market
  {
    hide CancelInBook, Release, TopLevels;
  }
}
