/**
 The exchange as a state machine: API requests, processed commands, commands
 that fail half way, and restarts of the matcher, in any order.
 */
module Exchange {
  import opened Wrappers
  import opened OrderBook
  import opened MarketSweep
  import opened Ledger
  import opened LedgerFacts
  import opened SettleFacts
  import opened Settlement
  import opened Invariant
  import opened BookLink
  import opened SubmitProof

  datatype Action =
    | Place(user: UserId, frozen: Option<bool>, request: OrderRequest, id: OrderId, commandId: CommandId)
    | AskCancel(user: UserId, id: OrderId, commandId: CommandId)
    | Process(command: Command)
    | Fail(command: Command, bookOps: nat)   // the database goes away after that many book operations
    | Restart                                // the books are rebuilt from the database

  /** Only commands that were committed to the outbox reach the matcher. */
  predicate Published(db: Db, c: Command) {
    CommandRow(c) in db.outbox
  }

  /** The books when a command's transaction is lost after some book operations. */
  function BooksAfterFailure(ms: Markets, s: State, c: Command, bookOps: nat): map<Symbol, Book> {
    match c {
      case CancelOrder(_, id, _) =>
        if bookOps == 0 || id !in s.db.orders || Terminal(s.db.orders[id].status) then s.books
        else
          var symbol := s.db.orders[id].market;
          s.books[symbol := CancelInBook(BookOf(s.books, symbol), id)]
      case Submit(_, _, symbol) =>
        match SubmitTarget(ms, s.db, c) {
          case None => s.books
          case Some(t) =>
            var b := BookOf(s.books, symbol);
            if t.row.orderType.LIMIT? then
              if bookOps == 0 || t.row.price.None? then s.books
              else
                match Add(b, t.id, t.row.side, t.row.price.value, t.row.leaveQty) {
                  case Refused => s.books
                  case Added(b1, _, _) => s.books[symbol := b1]
                }
            else
              var levels := MarketLevels(b, t.row.side);
              var swept := levels[..if bookOps <= |levels| then bookOps else |levels|];
              s.books[symbol := Sweep(b, t.id, t.row.side, swept, 0, t.row.quantity).book]
        }
    }
  }

  function Step(ms: Markets, s: State, a: Action): State {
    match a {
      case Place(user, frozen, r, id, cmd) =>
        match SubmitOrder(ms, s.db, user, frozen, r, id, cmd) {
          case Accepted(db) => s.(db := db)
          case Rejected(_) => s
        }
      case AskCancel(user, id, cmd) =>
        match RequestCancel(s.db, user, id, cmd) {
          case Accepted(db) => s.(db := db)
          case Rejected(_) => s
        }
      case Process(c) => if Published(s.db, c) then Deliver(ms, s, c).state else s
      case Fail(c, n) => if Published(s.db, c) then s.(books := BooksAfterFailure(ms, s, c, n)) else s
      case Restart => s.(books := Reboot(s.db))
    }
  }

  function Run(ms: Markets, s: State, actions: seq<Action>): State
    decreases |actions|
  {
    if actions == [] then s else Run(ms, Step(ms, s, actions[0]), actions[1..])
  }

  /** No orders, nothing locked. */
  ghost predicate Initial(ms: Markets, s: State) {
    && MarketsOk(ms) && WalletsOk(s.db.wallets)
    && (forall k :: k in s.db.wallets ==> s.db.wallets[k].locked == 0)
    && s.db.orders == map[] && s.db.trades == [] && s.db.outbox == [] && s.books == map[]
  }

  /** What every step keeps. */
  ghost predicate StepKeeps(ms: Markets, s: State, s1: State) {
    Inv(ms, s1) && Progress(s.db.orders, s1.db.orders) && Conserved(ms, s.db, s1.db)
  }

  // ------------------------------------------------------------------ CANCEL

  lemma ReleaseUnlocks(ws: Wallets, m: Market, o: Order, k: WalletKey)
    requires Release(ws, m, o).Some? && !Terminal(o.status) && o.leaveQty > 0
    ensures LockedAt(Release(ws, m, o).value, k) == LockedAt(ws, k) - ReservedFor(m, o, k)
  {
  }

  lemma ReleaseKeepsSupply(ws: Wallets, m: Market, o: Order, a: Asset)
    requires Release(ws, m, o).Some?
    ensures Supply(Release(ws, m, o).value, a) == Supply(ws, a)
  {
    if o.leaveQty > 0 {
      if o.side.Bid? && o.price.Some? {
        var x := QuoteAmount(o.price.value, o.leaveQty);
        UpdateMovesSupply(ws, WalletKey(o.userId, m.quoteAsset), x, -x, a);
      } else if o.side.Ask? {
        UpdateMovesSupply(ws, WalletKey(o.userId, m.baseAsset), BaseAmount(o.leaveQty), -BaseAmount(o.leaveQty), a);
      }
    }
  }

  lemma CancelLocks(ms: Markets, ws: Wallets, orders: map<OrderId, Order>, id: OrderId)
    requires LocksMatch(ms, ws, orders) && id in orders && OrderOk(ms, orders[id]) && !Terminal(orders[id].status)
    requires Release(ws, ms[orders[id].market], orders[id]).Some?
    ensures LocksMatch(ms, Release(ws, ms[orders[id].market], orders[id]).value, orders[id := orders[id].(status := CANCELLED)])
  {
    var o := orders[id];
    var m := ms[o.market];
    var ws1 := Release(ws, m, o).value;
    forall k ensures LockedAt(ws1, k) == Reserved(ms, orders[id := o.(status := CANCELLED)], k) {
      ReleaseUnlocks(ws, m, o, k);
      OrderWriteMovesReserved(ms, orders, id, o.(status := CANCELLED), k);
    }
  }

  /** Outside the cancelled order's own entry no book notices. */
  lemma CancelBooks(orders: map<OrderId, Order>, books: map<Symbol, Book>, id: OrderId)
    requires BooksOk(orders, books) && id in orders && !Terminal(orders[id].status)
    ensures var symbol := orders[id].market;
            var b := CancelInBook(BookOf(books, symbol), id);
            && BooksOk(orders, books[symbol := b])
            && BooksOk(orders[id := orders[id].(status := CANCELLED)], books[symbol := b])
  {
    var symbol := orders[id].market;
    BookOfOk(orders, books, symbol);
    CancelKeepsBookOk(orders, symbol, BookOf(books, symbol), id);
    var now := books[symbol := CancelInBook(BookOf(books, symbol), id)];
    var after := orders[id := orders[id].(status := CANCELLED)];
    forall x | x in now ensures BookOk(after, x, now[x]) {
      assert BookOk(orders, x, now[x]);
      forall e | e in now[x].bids ensures EntryOk(after, x, Bid, e) {
        assert EntryOk(orders, x, Bid, e);
      }
      forall e | e in now[x].asks ensures EntryOk(after, x, Ask, e) {
        assert EntryOk(orders, x, Ask, e);
      }
    }
  }

  lemma CancelRecords(ms: Markets, db: Db, id: OrderId, after: Db, events: seq<Payload>)
    requires DbOk(ms, db) && id in db.orders
    requires after.orders == db.orders[id := db.orders[id].(status := CANCELLED)]
    requires after.trades == db.trades && after.nextOrderId == db.nextOrderId
    requires after.outbox == db.outbox + events && TradeLog(events) == [] && forall c :: CommandRow(c) !in events
    ensures RecordsOk(ms, after)
  {
    hide TradeLog, AllTradeEvents, TradesOk, Numbered, MatchIdsUnique, LocksMatch, TradedQty;
    TradesOkKept(ms, db.orders, after.orders, db.trades);
    TradeLogConcat(db.outbox, events);
    forall c | CommandRow(c) in after.outbox ensures CommandOk(after.orders, c) {
      assert CommandRow(c) in db.outbox;
    }
  }

  lemma CancelEventsLogged(id: OrderId, o: Order, b: Book)
    ensures TradeLog(CancelEvents(id, o, b)) == [] && forall c :: CommandRow(c) !in CancelEvents(id, o, b)
  {
    hide TopLevels, TradeLog;
    OtherEventsLogged(OrderCancelled(id, o.leaveQty, o.filledQty), CancelNotice(o.userId, id), Snapshot(o.market, b));
  }

  lemma OtherEventsLogged(p: Payload, q: Payload, r: Payload)
    requires !IsTradeEvent(p) && !IsTradeEvent(q) && !IsTradeEvent(r)
    ensures TradeLog([p, q, r]) == []
  {
    hide TradeLog;
    TradeLogOne(p);
    TradeLogAppend([p], q);
    TradeLogAppend([p, q], r);
    assert [p] + [q] == [p, q] && [p, q] + [r] == [p, q, r];
  }

  lemma CancelCommitKeeps(ms: Markets, s: State, c: Command)
    requires Inv(ms, s) && c.CancelOrder? && SettleCancel(ms, s, c).outcome == Committed
    ensures var after := SettleCancel(ms, s, c).state.db;
            DbOk(ms, after) && Progress(s.db.orders, after.orders) && Conserved(ms, s.db, after)
  {
    hide CancelEvents, CancelInBook, Release, RecordsOk, BooksOk;
    var o := s.db.orders[c.orderId];
    assert OrderOk(ms, o);
    var after := SettleCancel(ms, s, c).state.db;
    var o1 := o.(status := CANCELLED);
    var b := CancelInBook(BookOf(s.books, o.market), c.orderId);
    CancelLocks(ms, s.db.wallets, s.db.orders, c.orderId);
    CancelEventsLogged(c.orderId, o1, b);
    CancelRecords(ms, s.db, c.orderId, after, CancelEvents(c.orderId, o1, b));
    ReleaseKeepsWalletsOk(s.db.wallets, ms[o.market], o);
    forall a ensures Total(ms, after, a) == Total(ms, s.db, a) {
      ReleaseKeepsSupply(s.db.wallets, ms[o.market], o, a);
    }
  }

  lemma ReleaseKeepsWalletsOk(ws: Wallets, m: Market, o: Order)
    requires WalletsOk(ws) && Release(ws, m, o).Some?
    ensures WalletsOk(Release(ws, m, o).value)
  {
  }

  /** A CANCEL command keeps everything in order, whatever its outcome. */
  lemma CancelKeeps(ms: Markets, s: State, c: Command)
    requires Inv(ms, s) && c.CancelOrder?
    ensures Kept(ms, s, SettleCancel(ms, s, c))
  {
    hide RecordsOk, LocksMatch, CancelEvents, Release, BooksOk, Supply, FeesTaken;
    SelfProgress(s.db.orders);
    var r := SettleCancel(ms, s, c);
    if r.outcome == Committed {
      CancelCommitKeeps(ms, s, c);
    }
    if c.orderId in s.db.orders && !Terminal(s.db.orders[c.orderId].status) {
      assert OrderOk(ms, s.db.orders[c.orderId]);
      CancelBooks(s.db.orders, s.books, c.orderId);
    }
  }

  /** A command that leaves the outbox keeps everything in order. */
  lemma DeliverKeeps(ms: Markets, s: State, c: Command)
    requires Inv(ms, s) && Published(s.db, c)
    ensures Kept(ms, s, Deliver(ms, s, c))
  {
    assert CommandOk(s.db.orders, c);
    match c {
      case Submit(_, _, _) => SubmitKeeps(ms, s, c);
      case CancelOrder(_, _, _) => CancelKeeps(ms, s, c);
    }
  }

  // --------------------------------------------------------------------- API

  lemma {:induction false} UnknownIdHasNoTrades(ms: Markets, orders: map<OrderId, Order>, ts: seq<Trade>, id: OrderId)
    requires TradesOk(ms, orders, ts) && id !in orders
    ensures TradedQty(ts, id) == 0
    decreases |ts|
  {
    if ts != [] {
      assert TradeOk(ms, orders, ts[|ts| - 1]);
      UnknownIdHasNoTrades(ms, orders, ts[..|ts| - 1], id);
    }
  }

  /** The reservation of a new order is exactly what the API locks for it. */
  lemma LockReservationLocks(ws: Wallets, user: UserId, m: Market, r: OrderRequest, cmd: CommandId, k: WalletKey)
    requires LockReservation(ws, user, m, r).Some? && r.quantity > 0
    ensures LockedAt(LockReservation(ws, user, m, r).value, k) == LockedAt(ws, k) + ReservedFor(m, NewOrder(user, r, cmd), k)
  {
  }

  lemma AtomicLockKeepsSupply(ws: Wallets, k: WalletKey, amount: int, a: Asset)
    requires AtomicLock(ws, k, amount).Some?
    ensures Supply(AtomicLock(ws, k, amount).value, a) == Supply(ws, a)
  {
    UpdateMovesSupply(ws, k, -amount, amount, a);
  }

  lemma LockReservationKeepsSupply(ws: Wallets, user: UserId, m: Market, r: OrderRequest, a: Asset)
    requires LockReservation(ws, user, m, r).Some?
    ensures Supply(LockReservation(ws, user, m, r).value, a) == Supply(ws, a)
    ensures WalletsOk(ws) ==> WalletsOk(LockReservation(ws, user, m, r).value)
  {
    if r.side.Ask? {
      AtomicLockKeepsSupply(ws, WalletKey(user, m.baseAsset), BaseAmount(r.quantity), a);
    } else if r.orderType.LIMIT? {
      AtomicLockKeepsSupply(ws, WalletKey(user, m.quoteAsset), QuoteAmount(r.price.value, r.quantity), a);
    }
  }

  lemma NewOrderOutbox(db: Db, id: OrderId, o: Order, after: Db)
    requires OutboxOk(db) && id !in db.orders && o.commandId.Some?
    requires after.orders == db.orders[id := o] && after.trades == db.trades
    requires after.outbox == db.outbox + [CommandRow(Submit(o.commandId.value, id, o.market))]
    ensures OutboxOk(after)
  {
    var row := CommandRow(Submit(o.commandId.value, id, o.market));
    TradeLogAppend(db.outbox, row);
    forall c | CommandRow(c) in after.outbox ensures CommandOk(after.orders, c) {
      assert CommandRow(c) in db.outbox || CommandRow(c) == row;
    }
    forall x | x in after.orders
      ensures after.orders[x].commandId.Some? && CommandRow(Submit(after.orders[x].commandId.value, x, after.orders[x].market)) in after.outbox
    {
      if x == id {
        assert after.outbox[|db.outbox|] == row;
      }
    }
  }

  lemma NewOrderRecords(ms: Markets, db: Db, id: OrderId, o: Order, after: Db)
    requires RecordsOk(ms, db) && id !in db.orders && o.filledQty == 0
    requires o.commandId.Some? && !CommandIdUsed(db.orders, o.commandId.value)
    requires after.orders == db.orders[id := o] && after.trades == db.trades
    requires after.outbox == db.outbox + [CommandRow(Submit(o.commandId.value, id, o.market))]
    requires after.nextOrderId == Max(db.nextOrderId, id + 1)
    ensures RecordsOk(ms, after)
  {
    hide TradeLog;
    NewOrderOutbox(db, id, o, after);
    TradesOkKept(ms, db.orders, after.orders, db.trades);
    UnknownIdHasNoTrades(ms, db.orders, db.trades, id);
  }

  lemma BooksOkExtend(before: map<OrderId, Order>, id: OrderId, o: Order, books: map<Symbol, Book>)
    requires BooksOk(before, books) && id !in before
    ensures BooksOk(before[id := o], books)
  {
  }

  lemma NewOrderLocks(ms: Markets, db: Db, user: UserId, r: OrderRequest, cmd: CommandId, id: OrderId)
    requires LocksMatch(ms, db.wallets, db.orders) && id !in db.orders && r.market in ms && r.quantity > 0
    requires LockReservation(db.wallets, user, ms[r.market], r).Some?
    ensures LocksMatch(ms, LockReservation(db.wallets, user, ms[r.market], r).value, db.orders[id := NewOrder(user, r, cmd)])
  {
    var ws := LockReservation(db.wallets, user, ms[r.market], r).value;
    var o := NewOrder(user, r, cmd);
    forall k ensures LockedAt(ws, k) == Reserved(ms, db.orders[id := o], k) {
      LockReservationLocks(db.wallets, user, ms[r.market], r, cmd, k);
      OrderWriteMovesReserved(ms, db.orders, id, o, k);
    }
  }

  lemma NewOrderOk(ms: Markets, user: UserId, frozen: Option<bool>, r: OrderRequest, cmd: CommandId)
    requires Validate(frozen, ms, r).None?
    ensures OrderOk(ms, NewOrder(user, r, cmd)) && r.market in ms && r.quantity > 0
  {
  }

  lemma PlaceKeeps(ms: Markets, s: State, user: UserId, frozen: Option<bool>, r: OrderRequest, id: OrderId, cmd: CommandId)
    requires Inv(ms, s)
    ensures StepKeeps(ms, s, Step(ms, s, Place(user, frozen, r, id, cmd)))
  {
    SelfProgress(s.db.orders);
    hide Validate, LockReservation, RecordsOk, BooksOk, CommandIdUsed;
    var result := SubmitOrder(ms, s.db, user, frozen, r, id, cmd);
    if result.Accepted? {
      NewOrderOk(ms, user, frozen, r, cmd);
      NewOrderLocks(ms, s.db, user, r, cmd, id);
      NewOrderRecords(ms, s.db, id, NewOrder(user, r, cmd), result.db);
      BooksOkExtend(s.db.orders, id, NewOrder(user, r, cmd), s.books);
      forall a ensures Total(ms, result.db, a) == Total(ms, s.db, a) {
        LockReservationKeepsSupply(s.db.wallets, user, ms[r.market], r, a);
      }
      LockReservationKeepsSupply(s.db.wallets, user, ms[r.market], r, "");
    }
  }

  lemma AskCancelKeeps(ms: Markets, s: State, user: UserId, id: OrderId, cmd: CommandId)
    requires Inv(ms, s)
    ensures StepKeeps(ms, s, Step(ms, s, AskCancel(user, id, cmd)))
  {
    hide TradeLog, AllTradeEvents, BooksOk, Supply, FeesTaken, LocksMatch, TradesOk, FillsRecorded, MatchIdsUnique, Numbered, OrdersOk;
    SelfProgress(s.db.orders);
    var result := RequestCancel(s.db, user, id, cmd);
    if result.Accepted? {
      var row := CommandRow(CancelOrder(cmd, id, s.db.orders[id].market));
      TradeLogAppend(s.db.outbox, row);
      forall c | CommandRow(c) in result.db.outbox ensures CommandOk(result.db.orders, c) {
        assert CommandRow(c) in s.db.outbox || CommandRow(c) == row;
      }
    }
  }

  // ------------------------------------------------------- failures, restarts

  lemma {:induction false} SweptBookOk(orders: map<OrderId, Order>, symbol: Symbol, b: Book, id: OrderId, side: Side,
                                       levels: seq<Level>, k: nat, remaining: int)
    requires BookOk(orders, symbol, b)
    requires remaining > 0 ==> levels <= Levels(b.Queue(side.Opposite()))
    ensures BookOk(orders, symbol, Sweep(b, id, side, levels, k, remaining).book)
    decreases |levels|
  {
    hide Match, Levels;
    if levels != [] && remaining > 0 && !InBook(b, SweepId(id, k)) {
      SweepStep(b, id, side, levels, k, remaining);
      var take := Min(levels[0].qty, remaining);
      WalkKeepsBookOk(orders, symbol, b, side, None, take);
      var a := Add(b, SweepId(id, k), side, levels[0].price, take);
      SweptBookOk(orders, symbol, a.book, id, side, levels[1..], k + 1, remaining - take);
    }
  }

  lemma FailKeeps(ms: Markets, s: State, c: Command, n: nat)
    requires Inv(ms, s)
    ensures StepKeeps(ms, s, Step(ms, s, Fail(c, n)))
  {
    hide Sweep, Levels, Match, LocksMatch, WalletsOk, TopLevels, EntryOk, WellFormed, Supply, TradesOk, FillsRecorded, MatchIdsUnique, Numbered;
    SelfProgress(s.db.orders);
    if Published(s.db, c) {
      assert CommandOk(s.db.orders, c);
      assert OrderOk(ms, s.db.orders[c.orderId]);
      BookOfOk(s.db.orders, s.books, c.symbol);
      if c.CancelOrder? {
        if !Terminal(s.db.orders[c.orderId].status) {
          CancelBooks(s.db.orders, s.books, c.orderId);
        }
      } else if SubmitTarget(ms, s.db, c).Some? {
        var t := SubmitTarget(ms, s.db, c).value;
        var b := BookOf(s.books, c.symbol);
        if t.row.orderType.LIMIT? {
          if !InBook(b, t.id) {
            AddKeepsBookOk(s.db.orders, c.symbol, b, t.id);
          }
        } else {
          var levels := MarketLevels(b, t.row.side);
          TopLevelsPrefix(b.Queue(t.row.side.Opposite()));
          SweptBookOk(s.db.orders, c.symbol, b, t.id, t.row.side, levels[..if n <= |levels| then n else |levels|], 0, t.row.quantity);
        }
      }
    }
  }

  lemma ReplayOneOk(ms: Markets, orders: map<OrderId, Order>, books: map<Symbol, Book>, id: OrderId)
    requires OrdersOk(ms, orders) && BooksOk(orders, books) && (id in orders ==> Replayable(orders[id]))
    ensures BooksOk(orders, ReplayOne(orders, books, id))
  {
    hide BookOk, Match, Insert;
    if id in orders {
      BookOfOk(orders, books, orders[id].market);
      var b := BookOf(books, orders[id].market);
      if orders[id].price.Some? && !InBook(b, id) {
        AddKeepsBookOk(orders, orders[id].market, b, id);
      }
    }
  }

  lemma {:induction false} ReplayOk(ms: Markets, orders: map<OrderId, Order>, ids: seq<OrderId>)
    requires OrdersOk(ms, orders) && forall i :: 0 <= i < |ids| ==> ids[i] in orders && Replayable(orders[ids[i]])
    ensures BooksOk(orders, Replay(orders, ids))
    decreases |ids|
  {
    if ids != [] {
      ReplayOk(ms, orders, ids[..|ids| - 1]);
      ReplayOneOk(ms, orders, Replay(orders, ids[..|ids| - 1]), ids[|ids| - 1]);
    }
  }

  /** The replay list holds exactly the live limit orders below n, in id order. */
  lemma {:induction false} OpenOrdersExact(orders: map<OrderId, Order>, n: nat)
    ensures forall id :: id in OpenOrders(orders, n) <==> id < n && id in orders && Replayable(orders[id])
    ensures forall i, j :: 0 <= i < j < |OpenOrders(orders, n)| ==> OpenOrders(orders, n)[i] < OpenOrders(orders, n)[j]
    decreases n
  {
    if n > 0 {
      OpenOrdersExact(orders, n - 1);
      var before := OpenOrders(orders, n - 1);
      forall i | 0 <= i < |before| ensures before[i] < n - 1 {
        assert before[i] in before;
      }
    }
  }

  lemma RestartKeeps(ms: Markets, s: State)
    requires Inv(ms, s)
    ensures StepKeeps(ms, s, Step(ms, s, Restart))
  {
    hide OpenOrders, Replay, BooksOk, RecordsOk, LocksMatch, OrdersOk, Supply, FeesTaken;
    SelfProgress(s.db.orders);
    var ids := OpenOrders(s.db.orders, s.db.nextOrderId);
    OpenOrdersExact(s.db.orders, s.db.nextOrderId);
    forall i | 0 <= i < |ids| ensures ids[i] in s.db.orders && Replayable(s.db.orders[ids[i]]) {
      assert ids[i] in ids;
    }
    ReplayOk(ms, s.db.orders, ids);
  }

  // -------------------------------------------------------------------- runs

  lemma StepKeepsAll(ms: Markets, s: State, a: Action)
    requires Inv(ms, s)
    ensures StepKeeps(ms, s, Step(ms, s, a))
  {
    SelfProgress(s.db.orders);
    match a {
      case Place(user, frozen, r, id, cmd) => PlaceKeeps(ms, s, user, frozen, r, id, cmd);
      case AskCancel(user, id, cmd) => AskCancelKeeps(ms, s, user, id, cmd);
      case Process(c) => if Published(s.db, c) { DeliverKeeps(ms, s, c); }
      case Fail(c, n) => FailKeeps(ms, s, c, n);
      case Restart => RestartKeeps(ms, s);
    }
  }

  lemma InitialInv(ms: Markets, s: State)
    requires Initial(ms, s)
    ensures Inv(ms, s)
  {
  }

  /**
   Over every interleaving of API requests, processed and half-processed
   commands, repeats, aborts and restarts: the invariant holds, every asset is
   conserved up to the recorded fees, and orders only move forward.
   */
  lemma {:induction false} RunKeepsAll(ms: Markets, s: State, actions: seq<Action>)
    requires Inv(ms, s)
    ensures StepKeeps(ms, s, Run(ms, s, actions))
    decreases |actions|
  {
    if actions == [] {
      SelfProgress(s.db.orders);
    } else {
      var s1 := Step(ms, s, actions[0]);
      StepKeepsAll(ms, s, actions[0]);
      RunKeepsAll(ms, s1, actions[1..]);
      ProgressTransitive(s.db.orders, s1.db.orders, Run(ms, s, actions).db.orders);
    }
  }

  /** What is locked in a wallet is, in every reachable state, exactly what the user's live orders reserve. */
  lemma LockedIsReserved(ms: Markets, s: State, actions: seq<Action>, k: WalletKey)
    requires Initial(ms, s)
    ensures var r := Run(ms, s, actions);
            && LockedAt(r.db.wallets, k) == Reserved(ms, r.db.orders, k)
            && LockedAt(r.db.wallets, k) >= 0 && BalanceAt(r.db.wallets, k) >= 0
  {
    InitialInv(ms, s);
    RunKeepsAll(ms, s, actions);
  }

  /** No asset is created or destroyed: holdings plus fees taken stay what users started with. */
  lemma AssetsConserved(ms: Markets, s: State, actions: seq<Action>, a: Asset)
    requires Initial(ms, s)
    ensures var r := Run(ms, s, actions); Supply(r.db.wallets, a) + FeesTaken(ms, r.db.trades, a) == Supply(s.db.wallets, a)
  {
    InitialInv(ms, s);
    RunKeepsAll(ms, s, actions);
    assert Total(ms, Run(ms, s, actions).db, a) == Total(ms, s.db, a);
  }
}
