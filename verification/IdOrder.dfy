/**
 Arrival order and id order. A replay puts the orders of one price back by id,
 so it restores the very same queues when they had been settled in id order.
 */
module IdOrder {
  import opened Wrappers
  import opened OrderBook
  import opened Ledger
  import opened SettleFacts
  import opened Settlement
  import opened Invariant
  import opened SubmitProof
  import opened Exchange
  import opened InSync
  import opened Reboots
  import opened Once

  predicate LimitSubmit(orders: map<OrderId, Order>, c: Command) {
    c.Submit? && c.orderId in orders && orders[c.orderId].orderType.LIMIT?
  }

  /** Two limit orders that would queue up at the same price. */
  predicate SamePlace(a: Order, b: Order) {
    a.market == b.market && a.side == b.side && a.price == b.price
  }

  /** The order of this SUBMIT has a larger id than every earlier one of its market, side and price. */
  ghost predicate ComesNext(orders: map<OrderId, Order>, seen: set<Command>, c: Command) {
    LimitSubmit(orders, c) ==>
      forall d :: d in seen && LimitSubmit(orders, d) && SamePlace(orders[d.orderId], orders[c.orderId]) ==> d.orderId < c.orderId
  }

  /** Limit orders of one market, side and price are submitted to the book, each for the first time, in ascending id order. */
  ghost predicate SettledInIdOrder(ms: Markets, s: State, seen: set<Command>, actions: seq<Action>)
    decreases |actions|
  {
    actions == []
    || (&& (actions[0].Process? && actions[0].command !in seen ==> ComesNext(s.db.orders, seen, actions[0].command))
        && SettledInIdOrder(ms, Step(ms, s, actions[0]),
                            if actions[0].Process? then seen + {actions[0].command} else seen, actions[1..]))
  }

  ghost predicate BookInIdOrder(b: Book) {
    OldestIdFirst(b.bids) && OldestIdFirst(b.asks)
  }

  ghost predicate BooksInIdOrder(books: map<Symbol, Book>) {
    forall x :: x in books ==> BookInIdOrder(books[x])
  }

  // ------------------------------------------------------------------ queues

  lemma MatchInIdOrder(q: seq<Entry>, taker: Side, limit: Option<int>, want: int)
    requires QueueOk(taker.Opposite(), q) && OldestIdFirst(q) && want >= 0
    ensures OldestIdFirst(Match(q, taker, limit, want).queue)
  {
    hide Match;
    var m := Match(q, taker, limit, want);
    var n, part := MatchShape(q, taker, limit, want);
    CutOk(taker.Opposite(), q, m, n, part);
    forall i, j | 0 <= i < j < |m.queue| && m.queue[i].price == m.queue[j].price ensures m.queue[i].id < m.queue[j].id {
      assert q[n + i].price == q[n + j].price;
    }
  }

  lemma RemoveInIdOrder(q: seq<Entry>, id: nat)
    requires OldestIdFirst(q)
    ensures OldestIdFirst(RemoveId(q, id))
  {
    hide IndexOf;
    var r, n := RemoveId(q, id), IndexOf(q, id);
    forall i, j | 0 <= i < j < |r| && r[i].price == r[j].price ensures r[i].id < r[j].id {
      if n < |q| {
        assert r[i] == q[if i < n then i else i + 1] && r[j] == q[if j < n then j else j + 1];
      }
    }
  }

  lemma AddInIdOrder(b: Book, id: nat, side: Side, price: int, qty: int)
    requires WellFormed(b) && BookInIdOrder(b) && qty > 0 && Add(b, id, side, price, qty).Added?
    requires forall e :: e in b.Queue(side) && e.price == price ==> e.id < id
    ensures BookInIdOrder(Add(b, id, side, price, qty).book)
  {
    hide Match, Insert, OldestIdFirst;
    var m := Match(b.Queue(side.Opposite()), side, Some(price), qty);
    MatchInIdOrder(b.Queue(side.Opposite()), side, Some(price), qty);
    InsertInIdOrder(side, b.Queue(side), Entry(id, price, m.leave));
  }

  lemma CancelInIdOrder(b: Book, id: nat)
    requires BookInIdOrder(b)
    ensures BookInIdOrder(CancelInBook(b, id))
  {
    hide OldestIdFirst, RemoveId, InBook;
    RemoveInIdOrder(b.bids, id);
    RemoveInIdOrder(b.asks, id);
  }

  // -------------------------------------------------------------------- runs

  lemma BookOfInIdOrder(books: map<Symbol, Book>, symbol: Symbol)
    requires BooksInIdOrder(books)
    ensures BookInIdOrder(BookOf(books, symbol))
  {
  }

  /** Whoever rests at the new order's price was submitted before it. */
  lemma RestsBefore(ms: Markets, s: State, seen: set<Command>, c: Command, e: Entry)
    requires Sync(ms, s, seen) && CommandOk(s.db.orders, c) && LimitSubmit(s.db.orders, c) && ComesNext(s.db.orders, seen, c)
    requires var o := s.db.orders[c.orderId]; e in BookOf(s.books, c.symbol).Queue(o.side) && o.price == Some(e.price)
    ensures e.id < c.orderId
  {
    hide Inv, ComesNext;
    BookOfSync(ms, s, seen, c.symbol);
    var o := s.db.orders[c.orderId];
    assert EntryOk(s.db.orders, c.symbol, o.side, e);
    var d := SubmitOf(s.db.orders, e.id);
    assert d in seen && LimitSubmit(s.db.orders, d) && SamePlace(s.db.orders[d.orderId], o);
    assert d.orderId < c.orderId by { Earlier(s.db.orders, seen, c, d); }
  }

  lemma Earlier(orders: map<OrderId, Order>, seen: set<Command>, c: Command, d: Command)
    requires ComesNext(orders, seen, c) && LimitSubmit(orders, c) && LimitSubmit(orders, d) && d in seen
    requires SamePlace(orders[d.orderId], orders[c.orderId])
    ensures d.orderId < c.orderId
  {
  }

  lemma LimitInIdOrder(ms: Markets, s: State, seen: set<Command>, m: Market, t: Taker, c: Command)
    requires Sync(ms, s, seen) && BooksInIdOrder(s.books) && ComesNext(s.db.orders, seen, c)
    requires TakerOk(ms, m, s.db.orders, t) && t.row.orderType.LIMIT? && t.row.commandId.Some?
    requires c == SubmitOf(s.db.orders, t.id) && SettleLimit(s, m, t, m.symbol, c.commandId).outcome == Committed
    ensures BooksInIdOrder(SettleLimit(s, m, t, m.symbol, c.commandId).state.books)
  {
    hide Add, SettleLimit, Inv, ComesNext, BookInIdOrder, Kept;
    var b := BookOf(s.books, m.symbol);
    SyncInv(ms, s, seen);
    CommittedLimitSettled(ms, s, m, t, c.commandId);
    SettleLimitCommits(ms, s, m, t, c.commandId);
    BookOfInIdOrder(s.books, m.symbol);
    BookOfSync(ms, s, seen, m.symbol);
    forall e | e in b.Queue(t.row.side) && e.price == t.row.price.value ensures e.id < t.id {
      RestsBefore(ms, s, seen, c, e);
    }
    AddInIdOrder(b, t.id, t.row.side, t.row.price.value, t.row.leaveQty);
  }

  lemma SyncInv(ms: Markets, s: State, seen: set<Command>)
    requires Sync(ms, s, seen)
    ensures Inv(ms, s)
  {
  }

  lemma MarketInIdOrder(ms: Markets, s: State, seen: set<Command>, m: Market, t: Taker, c: Command)
    requires Sync(ms, s, seen) && BooksInIdOrder(s.books)
    requires TakerOk(ms, m, s.db.orders, t) && !t.row.orderType.LIMIT? && t.row.commandId.Some?
    requires c == SubmitOf(s.db.orders, t.id) && SettleMarket(s, m, t, m.symbol, c.commandId).outcome == Committed
    ensures BooksInIdOrder(SettleMarket(s, m, t, m.symbol, c.commandId).state.books)
  {
    hide Match, SettleMarket, Inv, Kept, WalkQty, OldestIdFirst;
    SyncInv(ms, s, seen);
    SettleMarketCommits(ms, s, m, t, c.commandId);
    BookOfInIdOrder(s.books, m.symbol);
    BookOfSync(ms, s, seen, m.symbol);
    MatchInIdOrder(BookOf(s.books, m.symbol).Queue(t.row.side.Opposite()), t.row.side, None, WalkQty(s, m.symbol, t));
  }

  lemma SubmitInIdOrder(ms: Markets, s: State, seen: set<Command>, c: Command)
    requires Sync(ms, s, seen) && BooksInIdOrder(s.books) && ComesNext(s.db.orders, seen, c)
    requires c !in seen && Published(s.db, c) && c.Submit? && !Over(s, c.orderId)
    requires SettleSubmit(ms, s, c).outcome != Aborted
    ensures BooksInIdOrder(SettleSubmit(ms, s, c).state.books)
  {
    hide SettleLimit, SettleMarket, BooksInIdOrder, ComesNext;
    SyncInv(ms, s, seen);
    PublishedOk(ms, s, c);
    var t := Taker(c.orderId, s.db.orders[c.orderId]);
    assert OrderOk(ms, t.row);
    if t.row.orderType.LIMIT? {
      FirstSubmitNotRefused(ms, s, seen, t.id);
      LimitNotRefused(s, ms[c.symbol], t, c.commandId);
      LimitInIdOrder(ms, s, seen, ms[c.symbol], t, c);
    } else {
      MarketNotRefused(s, ms[c.symbol], t, c.commandId);
      MarketInIdOrder(ms, s, seen, ms[c.symbol], t, c);
    }
  }

  lemma LimitNotRefused(s: State, m: Market, t: Taker, cmd: CommandId)
    requires !InBook(BookOf(s.books, m.symbol), t.id)
    ensures SettleLimit(s, m, t, m.symbol, cmd).outcome in {Committed, Aborted}
  {
    hide InBook, Match, SettleFills;
  }

  lemma MarketNotRefused(s: State, m: Market, t: Taker, cmd: CommandId)
    ensures SettleMarket(s, m, t, m.symbol, cmd).outcome in {Committed, Aborted}
  {
    hide SweepLevels;
  }

  lemma CancelStepInIdOrder(ms: Markets, s: State, c: Command)
    requires BooksInIdOrder(s.books) && c.CancelOrder?
    ensures BooksInIdOrder(SettleCancel(ms, s, c).state.books)
  {
    hide CancelInBook, Release, CancelEvents, BookInIdOrder;
    if c.orderId in s.db.orders {
      BookOfInIdOrder(s.books, s.db.orders[c.orderId].market);
      CancelInIdOrder(BookOf(s.books, s.db.orders[c.orderId].market), c.orderId);
    }
  }

  lemma ProcessInIdOrder(ms: Markets, s: State, seen: set<Command>, c: Command)
    requires Sync(ms, s, seen) && BooksInIdOrder(s.books) && ComesNext(s.db.orders, seen, c)
    requires c !in seen && Published(s.db, c) && Deliver(ms, s, c).outcome != Aborted
    ensures BooksInIdOrder(Deliver(ms, s, c).state.books)
  {
    hide SettleCancel, BooksInIdOrder, SettleLimit, SettleMarket, ComesNext;
    if c.CancelOrder? {
      CancelStepInIdOrder(ms, s, c);
    } else if Over(s, c.orderId) {
      assert Deliver(ms, s, c).state == s;
    } else {
      SubmitInIdOrder(ms, s, seen, c);
    }
  }

  lemma RestartInIdOrder(ms: Markets, s: State, seen: set<Command>)
    requires Sync(ms, s, seen) && NoneOutstanding(s)
    ensures BooksInIdOrder(Step(ms, s, Restart).books)
  {
    hide Reboot, Inv, OldestIdFirst;
    var books := Reboot(s.db);
    forall x | x in books ensures BookInIdOrder(books[x]) {
      ReplayInIdOrder(ms, s, x, Bid);
      ReplayInIdOrder(ms, s, x, Ask);
    }
  }

  /** Every queue of every book keeps its ids ascending within each price, restarts included. */
  lemma {:induction false} RunInIdOrder(ms: Markets, s: State, seen: set<Command>, actions: seq<Action>)
    requires Sync(ms, s, seen) && Committing(ms, s, actions) && SettledInIdOrder(ms, s, seen, actions)
    requires BooksInIdOrder(s.books)
    ensures BooksInIdOrder(Run(ms, s, actions).books)
    decreases |actions|
  {
    hide Sync, NoneOutstanding, Deliver, SubmitOrder, RequestCancel, Reboot, BooksAfterFailure, BooksInIdOrder, ComesNext;
    if actions != [] {
      var a := actions[0];
      var s1 := Step(ms, s, a);
      var seen1 := if a.Process? then seen + {a.command} else seen;
      if a.Process? && a.command in seen {
        RepeatIsNoop(ms, s, seen, a.command);
        assert seen1 == seen && s1 == s;
      } else if a.Process? {
        ProcessSync(ms, s, seen, a.command);
        ProcessInIdOrder(ms, s, seen, a.command);
      } else if a.Restart? {
        RestartSync(ms, s, seen);
        RestartInIdOrder(ms, s, seen);
      } else {
        ApiSync(ms, s, seen, a);
        assert s1.books == s.books;
      }
      RunInIdOrder(ms, s1, seen1, actions[1..]);
    }
  }

  /**
   After a committing run that settled in id order, with no SUBMIT of a limit
   order outstanding, a restart gives the very same queues.
   */
  lemma RestartRestoresQueues(ms: Markets, s: State, actions: seq<Action>, symbol: Symbol, side: Side)
    requires Initial(ms, s) && Committing(ms, s, actions) && SettledInIdOrder(ms, s, {}, actions)
    requires AllSubmitted(Run(ms, s, actions).db.orders, Processed(actions))
    ensures var r := Run(ms, s, actions);
            BookOf(Step(ms, r, Restart).books, symbol).Queue(side) == BookOf(r.books, symbol).Queue(side)
  {
    hide Run, Step, Committing, SettledInIdOrder, AllSubmitted, Processed, TopLevels, Resting;
    InitialSync(ms, s);
    RunInIdOrder(ms, s, {}, actions);
    BookOfInIdOrder(Run(ms, s, actions).books, symbol);
    RestartRestoresBooks(ms, s, actions, symbol, side);
  }
}
