/** A SUBMIT command keeps everything that holds between transactions, whatever its outcome. */
module SubmitFacts {
  import opened Wrappers
  import opened OrderBook
  import opened Ledger
  import opened LedgerFacts
  import opened SettleFacts
  import opened Invariant
  import opened BookLink

  // ------------------------------------------------------------ new trade rows

  lemma {:induction false} FilledIsOneFill(fills: seq<Fill>, id: nat) returns (i: nat)
    requires DistinctMakers(fills) && Filled(fills, id) != 0
    ensures i < |fills| && fills[i].makerId == id && fills[i].qty == Filled(fills, id)
    decreases |fills|
  {
    if fills[0].makerId == id {
      i := 0;
      FilledAbsent(fills[1..], id);
    } else {
      var j := FilledIsOneFill(fills[1..], id);
      i := j + 1;
    }
  }

  lemma TradedOk(ms: Markets, orders: map<OrderId, Order>, t: Taker, fills: seq<Fill>, id: OrderId)
    requires OrdersOk(ms, orders) && GoodFills(orders, t, fills) && id in orders
    ensures var o := Traded(orders[id], Filled(fills, id));
            && OrderOk(ms, o) && Terms(o) == Terms(orders[id])
            && orders[id].filledQty <= o.filledQty
            && (Terminal(orders[id].status) ==> o == orders[id])
  {
    if Filled(fills, id) != 0 {
      var i := FilledIsOneFill(fills, id);
      assert GoodFill(orders, t, fills[i]);
    }
  }

  lemma {:induction false} SettleFillsMatchIds(db: Db, m: Market, t: Taker, fills: seq<Fill>, cmd: CommandId, idx: nat)
    requires MatchIdsUnique(db.trades) && SettleFills(db, m, t, fills, cmd, idx).Some?
    ensures MatchIdsUnique(SettleFills(db, m, t, fills, cmd, idx).value.trades)
    decreases |fills|
  {
    if fills != [] {
      var d := SettleFill(db, m, t, fills[0], MatchId(cmd, idx)).value;
      SettleFillsMatchIds(d, m, t, fills[1..], cmd, idx + 1);
    }
  }

  lemma {:induction false} SettleFillsTraded(ms: Markets, db: Db, m: Market, t: Taker, fills: seq<Fill>, cmd: CommandId, idx: nat, id: OrderId)
    requires TakerOk(ms, m, db.orders, t) && GoodFills(db.orders, t, fills)
    requires SettleFills(db, m, t, fills, cmd, idx).Some?
    ensures TradedQty(SettleFills(db, m, t, fills, cmd, idx).value.trades, id)
            == TradedQty(db.trades, id) + Filled(fills, id) + if id == t.id then FillTotal(fills) else 0
    decreases |fills|
  {
    if fills != [] {
      SettleHead(ms, db, m, t, fills, cmd, idx);
      var d := SettleFill(db, m, t, fills[0], MatchId(cmd, idx)).value;
      TradedQtyAppend(db.trades, TradeRow(m, db.orders[fills[0].makerId], t, fills[0], MatchId(cmd, idx)), id);
      SettleFillsTraded(ms, d, m, t, fills[1..], cmd, idx + 1, id);
    }
  }

  lemma NewRowsOk(ms: Markets, orders: map<OrderId, Order>, m: Market, t: Taker, fills: seq<Fill>, cmd: CommandId)
    requires TakerOk(ms, m, orders, t) && GoodFills(orders, t, fills) && OrdersOk(ms, orders)
    requires t.row.commandId == Some(cmd)
    ensures TradesOk(ms, orders, TradeRows(m, orders, t, fills, cmd, 0))
  {
  }

  lemma NumberedAppend(m: Market, orders: map<OrderId, Order>, t: Taker, fills: seq<Fill>, cmd: CommandId, ts: seq<Trade>)
    requires Numbered(ts) && forall i :: 0 <= i < |fills| ==> fills[i].makerId in orders
    ensures Numbered(ts + TradeRows(m, orders, t, fills, cmd, 0))
  {
  }

  /** The outbox of a committed SUBMIT: the events of each new trade, in order, and no commands. */
  lemma SubmitEventsLogged(id: OrderId, o: Order, ts: seq<Trade>, symbol: Symbol, b: Book)
    ensures TradeLog(SubmitEvents(id, o, ts, symbol, b)) == AllTradeEvents(ts)
    ensures forall c :: CommandRow(c) !in SubmitEvents(id, o, ts, symbol, b)
  {
    hide TopLevels;
    var first, last := OrderAdded(id, o.leaveQty, o.filledQty, o.status), Snapshot(symbol, b);
    TradeEventsLogged(ts);
    NoCommandsInTradeEvents(ts);
    TradeLogConcat([first] + AllTradeEvents(ts), [last]);
    TradeLogConcat([first], AllTradeEvents(ts));
    TradeLogAppend([], first);
    TradeLogAppend([], last);
    assert [] + [first] == [first] && [] + [last] == [last];
  }

  lemma {:induction false} NoCommandsInTradeEvents(ts: seq<Trade>)
    ensures forall c :: CommandRow(c) !in AllTradeEvents(ts)
    decreases |ts|
  {
    if ts != [] {
      NoCommandsInTradeEvents(ts[1..]);
    }
  }

  lemma {:induction false} AllTradeEventsConcat(a: seq<Trade>, b: seq<Trade>)
    ensures AllTradeEvents(a + b) == AllTradeEvents(a) + AllTradeEvents(b)
    decreases |a|
  {
    if a == [] {
      assert a + b == b;
    } else {
      AllTradeEventsConcat(a[1..], b);
      assert (a + b)[0] == a[0] && (a + b)[1..] == a[1..] + b;
    }
  }

  // ----------------------------------------------------------- after the trades

  /** The rows once all trades are settled and the taker's own row is written as `o`. */
  lemma OrdersAfter(ms: Markets, db: Db, m: Market, t: Taker, fills: seq<Fill>, cmd: CommandId, o: Order)
    requires OrdersOk(ms, db.orders) && TakerOk(ms, m, db.orders, t) && GoodFills(db.orders, t, fills)
    requires SettleFills(db, m, t, fills, cmd, 0).Some?
    requires OrderOk(ms, o) && Terms(o) == Terms(t.row) && t.row.filledQty <= o.filledQty
    ensures var d := SettleFills(db, m, t, fills, cmd, 0).value;
            && t.id in d.orders && d.orders[t.id] == t.row
            && d.orders.Keys == db.orders.Keys
            && OrdersOk(ms, d.orders[t.id := o])
            && Progress(db.orders, d.orders[t.id := o])
            && OnlyTraded(db.orders, d.orders[t.id := o], t.id, fills)
  {
    SettleFillsRows(db, m, t, fills, cmd, 0);
    var d := SettleFills(db, m, t, fills, cmd, 0).value;
    forall i | 0 <= i < |fills| ensures fills[i].makerId != t.id {
      assert GoodFill(db.orders, t, fills[i]);
    }
    FilledAbsent(fills, t.id);
    forall id | id in db.orders
      ensures OrderOk(ms, d.orders[id]) && Terms(d.orders[id]) == Terms(db.orders[id])
      ensures db.orders[id].filledQty <= d.orders[id].filledQty
      ensures Terminal(db.orders[id].status) ==> d.orders[id] == db.orders[id]
    {
      TradedOk(ms, db.orders, t, fills, id);
    }
  }

  lemma TradesAfter(ms: Markets, db: Db, m: Market, t: Taker, fills: seq<Fill>, cmd: CommandId, o: Order)
    requires DbOk(ms, db) && TakerOk(ms, m, db.orders, t) && GoodFills(db.orders, t, fills)
    requires SettleFills(db, m, t, fills, cmd, 0).Some? && t.row.commandId == Some(cmd)
    requires OrderOk(ms, o) && Terms(o) == Terms(t.row) && o.filledQty == t.row.filledQty + FillTotal(fills) && FillTotal(fills) >= 0
    ensures var d := SettleFills(db, m, t, fills, cmd, 0).value;
            && TradesOk(ms, d.orders[t.id := o], d.trades)
            && MatchIdsUnique(d.trades) && Numbered(d.trades)
  {
    hide LocksMatch, OutboxOk, FillsRecorded, SettleFill, TradeRow;
    var d := SettleFills(db, m, t, fills, cmd, 0).value;
    OrdersAfter(ms, db, m, t, fills, cmd, o);
    SettleFillsRows(db, m, t, fills, cmd, 0);
    SettleFillsMatchIds(db, m, t, fills, cmd, 0);
    NewRowsOk(ms, db.orders, m, t, fills, cmd);
    NumberedAppend(m, db.orders, t, fills, cmd, db.trades);
    TradesOkKept(ms, db.orders, d.orders[t.id := o], d.trades);
  }

  lemma FillsRecordedAfter(ms: Markets, db: Db, m: Market, t: Taker, fills: seq<Fill>, cmd: CommandId, o: Order)
    requires FillsRecorded(db.orders, db.trades) && OrdersOk(ms, db.orders)
    requires TakerOk(ms, m, db.orders, t) && GoodFills(db.orders, t, fills)
    requires SettleFills(db, m, t, fills, cmd, 0).Some?
    requires o.filledQty == t.row.filledQty + FillTotal(fills)
    ensures var d := SettleFills(db, m, t, fills, cmd, 0).value; FillsRecorded(d.orders[t.id := o], d.trades)
  {
    var d := SettleFills(db, m, t, fills, cmd, 0).value;
    SettleFillsRows(db, m, t, fills, cmd, 0);
    forall i | 0 <= i < |fills| ensures fills[i].makerId != t.id {
      assert GoodFill(db.orders, t, fills[i]);
    }
    FilledAbsent(fills, t.id);
    forall id | id in d.orders[t.id := o] ensures d.orders[t.id := o][id].filledQty == TradedQty(d.trades, id) {
      SettleFillsTraded(ms, db, m, t, fills, cmd, 0, id);
    }
  }

  /** The database after a commit, all but the wallets. */
  ghost predicate CommittedFrom(db: Db, d: Db, t: Taker, o: Order, ws: Wallets, symbol: Symbol, b: Book, after: Db) {
    && |db.trades| <= |d.trades|
    && after == d.(wallets := ws, orders := d.orders[t.id := o],
                   outbox := d.outbox + SubmitEvents(t.id, o, d.trades[|db.trades|..], symbol, b))
  }

  lemma OutboxAfter(ms: Markets, db: Db, m: Market, t: Taker, fills: seq<Fill>, cmd: CommandId, o: Order, ws: Wallets, symbol: Symbol, b: Book, after: Db)
    requires OutboxOk(db) && OrdersOk(ms, db.orders) && TakerOk(ms, m, db.orders, t) && GoodFills(db.orders, t, fills)
    requires SettleFills(db, m, t, fills, cmd, 0).Some?
    requires OrderOk(ms, o) && Terms(o) == Terms(t.row) && t.row.filledQty <= o.filledQty
    requires CommittedFrom(db, SettleFills(db, m, t, fills, cmd, 0).value, t, o, ws, symbol, b, after)
    ensures OutboxOk(after)
  {
    var d := SettleFills(db, m, t, fills, cmd, 0).value;
    OrdersAfter(ms, db, m, t, fills, cmd, o);
    SettleFillsRows(db, m, t, fills, cmd, 0);
    var rows := TradeRows(m, db.orders, t, fills, cmd, 0);
    assert d.trades[|db.trades|..] == rows;
    var events := SubmitEvents(t.id, o, rows, symbol, b);
    SubmitEventsLogged(t.id, o, rows, symbol, b);
    TradeLogConcat(db.outbox, events);
    AllTradeEventsConcat(db.trades, rows);
    forall c | CommandRow(c) in after.outbox ensures CommandOk(after.orders, c) {
      assert CommandRow(c) in db.outbox;
      assert CommandOk(db.orders, c);
      assert Terms(after.orders[c.orderId]) == Terms(db.orders[c.orderId]);
    }
    forall id | id in after.orders
      ensures after.orders[id].commandId.Some? && CommandRow(Submit(after.orders[id].commandId.value, id, after.orders[id].market)) in after.outbox
    {
      assert Terms(after.orders[id]) == Terms(db.orders[id]);
    }
  }

  lemma CommandIdsAfter(before: map<OrderId, Order>, after: map<OrderId, Order>)
    requires CommandIdsUnique(before) && Progress(before, after) && after.Keys == before.Keys
    ensures CommandIdsUnique(after)
  {
  }

  lemma CommitKeepsTrades(ms: Markets, db: Db, m: Market, t: Taker, fills: seq<Fill>, cmd: CommandId, o: Order, ws: Wallets, symbol: Symbol, b: Book, after: Db)
    requires DbOk(ms, db) && TakerOk(ms, m, db.orders, t) && GoodFills(db.orders, t, fills)
    requires SettleFills(db, m, t, fills, cmd, 0).Some? && t.row.commandId == Some(cmd)
    requires OrderOk(ms, o) && Terms(o) == Terms(t.row) && o.filledQty == t.row.filledQty + FillTotal(fills) && FillTotal(fills) >= 0
    requires CommittedFrom(db, SettleFills(db, m, t, fills, cmd, 0).value, t, o, ws, symbol, b, after)
    ensures TradesOk(ms, after.orders, after.trades) && MatchIdsUnique(after.trades) && Numbered(after.trades)
    ensures FillsRecorded(after.orders, after.trades)
  {
    TradesAfter(ms, db, m, t, fills, cmd, o);
    FillsRecordedAfter(ms, db, m, t, fills, cmd, o);
  }

  lemma CommitKeepsIds(ms: Markets, db: Db, m: Market, t: Taker, fills: seq<Fill>, cmd: CommandId, o: Order, ws: Wallets, symbol: Symbol, b: Book, after: Db)
    requires DbOk(ms, db) && TakerOk(ms, m, db.orders, t) && GoodFills(db.orders, t, fills)
    requires SettleFills(db, m, t, fills, cmd, 0).Some? && t.row.commandId == Some(cmd)
    requires OrderOk(ms, o) && Terms(o) == Terms(t.row) && o.filledQty == t.row.filledQty + FillTotal(fills) && FillTotal(fills) >= 0
    requires CommittedFrom(db, SettleFills(db, m, t, fills, cmd, 0).value, t, o, ws, symbol, b, after)
    ensures CommandIdsUnique(after.orders) && forall id :: id in after.orders ==> id < after.nextOrderId
  {
    hide SettleFills, LocksMatch, TradesOk, FillsRecorded, Numbered, OutboxOk, SubmitEvents, MatchIdsUnique;
    OrdersAfter(ms, db, m, t, fills, cmd, o);
    CommandIdsAfter(db.orders, after.orders);
    SettleFillsRows(db, m, t, fills, cmd, 0);
  }

  lemma CommitKeepsRecords(ms: Markets, db: Db, m: Market, t: Taker, fills: seq<Fill>, cmd: CommandId, o: Order, ws: Wallets, symbol: Symbol, b: Book, after: Db)
    requires DbOk(ms, db) && TakerOk(ms, m, db.orders, t) && GoodFills(db.orders, t, fills)
    requires SettleFills(db, m, t, fills, cmd, 0).Some? && t.row.commandId == Some(cmd)
    requires OrderOk(ms, o) && Terms(o) == Terms(t.row) && o.filledQty == t.row.filledQty + FillTotal(fills) && FillTotal(fills) >= 0
    requires CommittedFrom(db, SettleFills(db, m, t, fills, cmd, 0).value, t, o, ws, symbol, b, after)
    ensures RecordsOk(ms, after)
  {
    CommitKeepsTrades(ms, db, m, t, fills, cmd, o, ws, symbol, b, after);
    CommitKeepsIds(ms, db, m, t, fills, cmd, o, ws, symbol, b, after);
    OutboxAfter(ms, db, m, t, fills, cmd, o, ws, symbol, b, after);
  }

  /** A commit keeps the database in order, given the final wallets are. */
  lemma CommitKeepsDbOk(ms: Markets, db: Db, m: Market, t: Taker, fills: seq<Fill>, cmd: CommandId, o: Order, ws: Wallets, symbol: Symbol, b: Book, after: Db)
    requires DbOk(ms, db) && TakerOk(ms, m, db.orders, t) && GoodFills(db.orders, t, fills)
    requires SettleFills(db, m, t, fills, cmd, 0).Some? && t.row.commandId == Some(cmd)
    requires OrderOk(ms, o) && Terms(o) == Terms(t.row) && o.filledQty == t.row.filledQty + FillTotal(fills) && FillTotal(fills) >= 0
    requires CommittedFrom(db, SettleFills(db, m, t, fills, cmd, 0).value, t, o, ws, symbol, b, after)
    requires WalletsOk(ws) && LocksMatch(ms, ws, after.orders)
    ensures DbOk(ms, after) && Progress(db.orders, after.orders)
    ensures OnlyTraded(db.orders, after.orders, t.id, fills)
  {
    OrdersAfter(ms, db, m, t, fills, cmd, o);
    CommitKeepsRecords(ms, db, m, t, fills, cmd, o, ws, symbol, b, after);
  }

  // --------------------------------------------------------------------- locks

  /** Writing the taker's final row and releasing what it no longer reserves. */
  lemma CloseTakerLocks(ms: Markets, ws: Wallets, orders: map<OrderId, Order>, m: Market, t: Taker, rem: int, o: Order, ws1: Wallets)
    requires TakerOk(ms, m, orders, t) && o.market == m.symbol
    requires LocksMatch(ms, ws, WithTaker(orders, t, rem))
    requires forall k :: LockedAt(ws1, k) == LockedAt(ws, k) - ReservedFor(m, t.row.(leaveQty := rem), k) + ReservedFor(m, o, k)
    ensures LocksMatch(ms, ws1, orders[t.id := o])
  {
    var view := WithTaker(orders, t, rem);
    forall k ensures LockedAt(ws1, k) == Reserved(ms, orders[t.id := o], k) {
      OrderWriteMovesReserved(ms, view, t.id, o, k);
      assert view[t.id := o] == orders[t.id := o];
    }
  }

  lemma TradesUnlockAt(ms: Markets, db: Db, m: Market, t: Taker, fills: seq<Fill>, cmd: CommandId, k: WalletKey)
    requires TakerOk(ms, m, db.orders, t) && GoodFills(db.orders, t, fills)
    requires LockGap(ms, db.wallets, db.orders, k) == 0
    requires SettleFills(db, m, t, fills, cmd, 0).Some?
    ensures var d := SettleFills(db, m, t, fills, cmd, 0).value;
            LockGap(ms, d.wallets, WithTaker(d.orders, t, t.row.leaveQty - FillTotal(fills)), k) == 0
  {
    assert WithTaker(db.orders, t, t.row.leaveQty) == db.orders;
    SettleFillsLocks(ms, db, m, t, fills, cmd, 0, t.row.leaveQty, k);
  }

  ghost predicate NoGap(ms: Markets, ws: Wallets, orders: map<OrderId, Order>) {
    forall k :: LockGap(ms, ws, orders, k) == 0
  }

  lemma LocksMatchIsNoGap(ms: Markets, ws: Wallets, orders: map<OrderId, Order>)
    ensures LocksMatch(ms, ws, orders) <==> NoGap(ms, ws, orders)
  {
    if NoGap(ms, ws, orders) {
      forall k ensures LockedAt(ws, k) == Reserved(ms, orders, k) {
        assert LockGap(ms, ws, orders, k) == 0;
      }
    }
  }

  lemma TradesUnlock(ms: Markets, db: Db, m: Market, t: Taker, fills: seq<Fill>, cmd: CommandId)
    requires LocksMatch(ms, db.wallets, db.orders) && WalletsOk(db.wallets)
    requires TakerOk(ms, m, db.orders, t) && GoodFills(db.orders, t, fills)
    requires SettleFills(db, m, t, fills, cmd, 0).Some?
    ensures var d := SettleFills(db, m, t, fills, cmd, 0).value;
            && LocksMatch(ms, d.wallets, WithTaker(d.orders, t, t.row.leaveQty - FillTotal(fills)))
            && WalletsOk(d.wallets)
  {
    var d := SettleFills(db, m, t, fills, cmd, 0).value;
    var view := WithTaker(d.orders, t, t.row.leaveQty - FillTotal(fills));
    LocksMatchIsNoGap(ms, db.wallets, db.orders);
    forall k ensures LockGap(ms, d.wallets, view, k) == 0 {
      TradesUnlockAt(ms, db, m, t, fills, cmd, k);
    }
    LocksMatchIsNoGap(ms, d.wallets, view);
    SettleFillsWalletsOk(db, m, t, fills, cmd, 0);
  }

  // ------------------------------------------------------------- limit orders

  lemma AfterMatchOk(ms: Markets, o: Order, leave: int)
    requires OrderOk(ms, o) && !Terminal(o.status) && o.orderType.LIMIT? && 0 <= leave <= o.leaveQty
    ensures var r := AfterMatch(o, leave, o.quantity);
            && OrderOk(ms, r) && Terms(r) == Terms(o) && r.filledQty == o.filledQty + o.leaveQty - leave
            && o.market in ms
            && forall k :: ReservedFor(ms[o.market], r, k) == ReservedFor(ms[o.market], o.(leaveQty := leave), k)
  {
  }

  lemma LimitCommit(ms: Markets, db: Db, m: Market, t: Taker, fills: seq<Fill>, cmd: CommandId, leave: int, b: Book, after: Db)
    requires DbOk(ms, db) && TakerOk(ms, m, db.orders, t) && GoodFills(db.orders, t, fills)
    requires t.row.orderType.LIMIT? && t.row.commandId == Some(cmd)
    requires SettleFills(db, m, t, fills, cmd, 0).Some?
    requires leave == t.row.leaveQty - FillTotal(fills) && 0 <= leave <= t.row.leaveQty
    requires CommittedFrom(db, SettleFills(db, m, t, fills, cmd, 0).value, t, AfterMatch(t.row, leave, t.row.quantity),
                           SettleFills(db, m, t, fills, cmd, 0).value.wallets, m.symbol, b, after)
    ensures DbOk(ms, after) && Progress(db.orders, after.orders)
    ensures OnlyTraded(db.orders, after.orders, t.id, fills)
  {
    var d := SettleFills(db, m, t, fills, cmd, 0).value;
    var o := AfterMatch(t.row, leave, t.row.quantity);
    AfterMatchOk(ms, t.row, leave);
    TradesUnlock(ms, db, m, t, fills, cmd);
    SettleFillsRows(db, m, t, fills, cmd, 0);
    OrdersAfter(ms, db, m, t, fills, cmd, o);
    CloseTakerLocks(ms, d.wallets, d.orders, m, t, leave, o, d.wallets);
    CommitKeepsDbOk(ms, db, m, t, fills, cmd, o, d.wallets, m.symbol, b, after);
  }
}
