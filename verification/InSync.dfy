/**
 Books and database in step. As long as settlements commit, the books show what
 the database has left, and a command that was processed before changes nothing.
 */
module InSync {
  import opened Wrappers
  import opened OrderBook
  import opened Ledger
  import opened SettleFacts
  import opened Settlement
  import opened Invariant
  import opened BookLink
  import opened SubmitProof
  import opened Exchange

  /** Entries show exactly what the database has left. */
  ghost predicate ExactQueue(orders: map<OrderId, Order>, q: seq<Entry>) {
    forall e :: e in q ==> e.id in orders && e.qty == orders[e.id].leaveQty
  }

  ghost predicate ExactBooks(orders: map<OrderId, Order>, books: map<Symbol, Book>) {
    forall s :: s in books ==> ExactQueue(orders, books[s].bids) && ExactQueue(orders, books[s].asks)
  }

  /** The order's row says it is over. */
  ghost predicate Over(s: State, id: OrderId) {
    id in s.db.orders && Terminal(s.db.orders[id].status)
  }

  /** The order rests in its market's book, on its side. */
  ghost predicate RestsInBook(s: State, id: OrderId) {
    id in s.db.orders && s.db.orders[id].orderType.LIMIT?
    && Rests(BookOf(s.books, s.db.orders[id].market).Queue(s.db.orders[id].side), id)
  }

  /** What a processed command leaves behind: the order is over or, after a SUBMIT, rests. */
  ghost predicate Handled(s: State, c: Command) {
    Over(s, c.orderId) || (c.Submit? && RestsInBook(s, c.orderId))
  }

  /** The SUBMIT command of an order. */
  function SubmitOf(orders: map<OrderId, Order>, id: OrderId): Command
    requires id in orders && orders[id].commandId.Some?
  {
    Submit(orders[id].commandId.value, id, orders[id].market)
  }

  ghost predicate QueueSeen(orders: map<OrderId, Order>, q: seq<Entry>, seen: set<Command>) {
    forall e :: e in q ==> e.id in orders && orders[e.id].commandId.Some? && SubmitOf(orders, e.id) in seen
  }

  ghost predicate BooksSeen(orders: map<OrderId, Order>, books: map<Symbol, Book>, seen: set<Command>) {
    forall s :: s in books ==> QueueSeen(orders, books[s].bids, seen) && QueueSeen(orders, books[s].asks, seen)
  }

  /** Books and database agree, and everything seen so far has been handled. */
  ghost predicate Sync(ms: Markets, s: State, seen: set<Command>) {
    && Inv(ms, s)
    && ExactBooks(s.db.orders, s.books)
    && BooksSeen(s.db.orders, s.books, seen)
    && (forall c :: c in seen ==> Published(s.db, c) && Handled(s, c))
  }

  lemma BookOfSync(ms: Markets, s: State, seen: set<Command>, symbol: Symbol)
    requires Sync(ms, s, seen)
    ensures var b := BookOf(s.books, symbol);
            && BookOk(s.db.orders, symbol, b)
            && ExactQueue(s.db.orders, b.bids) && ExactQueue(s.db.orders, b.asks)
            && QueueSeen(s.db.orders, b.bids, seen) && QueueSeen(s.db.orders, b.asks, seen)
  {
    BookOfOk(s.db.orders, s.books, symbol);
  }

  /** A repeated command changes nothing: no wallet, order, trade, outbox row or book entry. */
  lemma RepeatIsNoop(ms: Markets, s: State, seen: set<Command>, c: Command)
    requires Sync(ms, s, seen) && c in seen
    ensures Deliver(ms, s, c).state == s
  {
    assert CommandOk(s.db.orders, c) && OrderOk(ms, s.db.orders[c.orderId]);
    if c.Submit? && !Over(s, c.orderId) {
      var o := s.db.orders[c.orderId];
      assert RestsInBook(s, c.orderId);
      assert o.market in s.books;
      assert s.books[o.market := s.books[o.market]] == s.books;
    }
  }

  // ------------------------------------------------- one settlement, seen from

  /** A settlement walked the opposing queue and perhaps let its rest join its own side. */
  ghost predicate SettledInBook(s: State, s1: State, symbol: Symbol, t: Taker, limit: Option<int>, want: int) {
    var b := BookOf(s.books, symbol);
    var b1 := BookOf(s1.books, symbol);
    var m := Match(b.Queue(t.row.side.Opposite()), t.row.side, limit, want);
    && want >= 0
    && t.id in s.db.orders && s.db.orders[t.id].market == symbol
    && OnlyTraded(s.db.orders, s1.db.orders, t.id, m.fills)
    && Progress(s.db.orders, s1.db.orders)
    && s1.books == s.books[symbol := b1]
    && b1.Queue(t.row.side.Opposite()) == m.queue
    && (forall e :: e in b1.Queue(t.row.side) ==> e in b.Queue(t.row.side) || e.id == t.id)
    && (forall e :: e in b.Queue(t.row.side) ==> e in b1.Queue(t.row.side))
    && (forall e :: e in b1.Queue(t.row.side) && e.id == t.id ==> t.id in s1.db.orders && e.qty == s1.db.orders[t.id].leaveQty)
  }

  lemma OtherOrderSame(s: State, s1: State, symbol: Symbol, t: Taker, limit: Option<int>, want: int,
                       otherSymbol: Symbol, otherSide: Side, e: Entry)
    requires SettledInBook(s, s1, symbol, t, limit, want)
    requires BookOk(s.db.orders, symbol, BookOf(s.books, symbol))
    requires EntryOk(s.db.orders, otherSymbol, otherSide, e) && e.id != t.id
    requires otherSymbol != symbol || otherSide == t.row.side
    ensures e.id in s1.db.orders && s1.db.orders[e.id] == s.db.orders[e.id]
  {
    OthersDoNotTrade(s.db.orders, BookOf(s.books, symbol), symbol, t.row.side, limit, want, otherSymbol, otherSide, e);
  }

  lemma ExactWalked(ms: Markets, s: State, s1: State, seen: set<Command>, symbol: Symbol, t: Taker, limit: Option<int>, want: int)
    requires Sync(ms, s, seen) && SettledInBook(s, s1, symbol, t, limit, want)
    requires !InBook(BookOf(s.books, symbol), t.id)
    ensures ExactQueue(s1.db.orders, BookOf(s1.books, symbol).Queue(t.row.side.Opposite()))
  {
    hide RecordsOk, LocksMatch, Match, OrdersOk;
    var q, q1 := BookOf(s.books, symbol).Queue(t.row.side.Opposite()), BookOf(s1.books, symbol).Queue(t.row.side.Opposite());
    BookOfSync(ms, s, seen, symbol);
    RestsMeans(q, t.id);
    forall e | e in q1 ensures e.id in s1.db.orders && e.qty == s1.db.orders[e.id].leaveQty {
      var y := MatchEntry(q, t.row.side, limit, want, e);
      assert EntryOk(s.db.orders, symbol, t.row.side.Opposite(), y);
    }
  }

  lemma ExactOwn(ms: Markets, s: State, s1: State, seen: set<Command>, symbol: Symbol, t: Taker, limit: Option<int>, want: int)
    requires Sync(ms, s, seen) && SettledInBook(s, s1, symbol, t, limit, want)
    requires !InBook(BookOf(s.books, symbol), t.id)
    ensures ExactQueue(s1.db.orders, BookOf(s1.books, symbol).Queue(t.row.side))
  {
    hide Match;
    BookOfSync(ms, s, seen, symbol);
    forall e | e in BookOf(s1.books, symbol).Queue(t.row.side) ensures e.id in s1.db.orders && e.qty == s1.db.orders[e.id].leaveQty {
      if e.id != t.id {
        assert EntryOk(s.db.orders, symbol, t.row.side, e);
        OtherOrderSame(s, s1, symbol, t, limit, want, symbol, t.row.side, e);
      }
    }
  }

  lemma ExactAfter(ms: Markets, s: State, s1: State, seen: set<Command>, symbol: Symbol, t: Taker, limit: Option<int>, want: int)
    requires Sync(ms, s, seen) && SettledInBook(s, s1, symbol, t, limit, want)
    requires !InBook(BookOf(s.books, symbol), t.id)
    ensures ExactBooks(s1.db.orders, s1.books)
  {
    hide Match;
    ExactWalked(ms, s, s1, seen, symbol, t, limit, want);
    ExactOwn(ms, s, s1, seen, symbol, t, limit, want);
    forall x | x in s1.books ensures ExactQueue(s1.db.orders, s1.books[x].bids) && ExactQueue(s1.db.orders, s1.books[x].asks) {
      if x != symbol {
        ExactOther(ms, s, s1, seen, symbol, t, limit, want, x, Bid);
        ExactOther(ms, s, s1, seen, symbol, t, limit, want, x, Ask);
      }
    }
  }

  lemma ExactOther(ms: Markets, s: State, s1: State, seen: set<Command>, symbol: Symbol, t: Taker, limit: Option<int>, want: int, x: Symbol, side: Side)
    requires Sync(ms, s, seen) && SettledInBook(s, s1, symbol, t, limit, want)
    requires x in s.books && x != symbol
    ensures ExactQueue(s1.db.orders, s.books[x].Queue(side))
  {
    BookOfSync(ms, s, seen, symbol);
    var q := s.books[x].Queue(side);
    forall e | e in q ensures e.id in s1.db.orders && e.qty == s1.db.orders[e.id].leaveQty {
      assert BookOk(s.db.orders, x, s.books[x]);
      assert EntryOk(s.db.orders, x, side, e);
      OtherOrderSame(s, s1, symbol, t, limit, want, x, side, e);
    }
  }

  lemma SeenAfter(ms: Markets, s: State, s1: State, seen: set<Command>, symbol: Symbol, t: Taker, limit: Option<int>, want: int, more: set<Command>)
    requires Sync(ms, s, seen) && SettledInBook(s, s1, symbol, t, limit, want)
    requires s.db.orders[t.id].commandId.Some? && SubmitOf(s.db.orders, t.id) in more && seen <= more
    ensures BooksSeen(s1.db.orders, s1.books, more)
  {
    hide RecordsOk, LocksMatch, Match, OrdersOk;
    var b, b1 := BookOf(s.books, symbol), BookOf(s1.books, symbol);
    var side, opp := t.row.side, t.row.side.Opposite();
    BookOfSync(ms, s, seen, symbol);
    forall id | id in s.db.orders && s.db.orders[id].commandId.Some?
      ensures id in s1.db.orders && s1.db.orders[id].commandId.Some? && SubmitOf(s1.db.orders, id) == SubmitOf(s.db.orders, id)
    {
      assert Terms(s1.db.orders[id]) == Terms(s.db.orders[id]);
    }
    forall e | e in b1.Queue(opp) ensures e.id in s.db.orders && s.db.orders[e.id].commandId.Some? && SubmitOf(s.db.orders, e.id) in more {
      var y := MatchEntry(b.Queue(opp), side, limit, want, e);
    }
    forall e | e in b1.Queue(side) ensures e.id in s.db.orders && s.db.orders[e.id].commandId.Some? && SubmitOf(s.db.orders, e.id) in more {
    }
    assert QueueSeen(s1.db.orders, b1.Queue(opp), more) && QueueSeen(s1.db.orders, b1.Queue(side), more);
    forall x | x in s1.books ensures QueueSeen(s1.db.orders, s1.books[x].bids, more) && QueueSeen(s1.db.orders, s1.books[x].asks, more) {
      if x != symbol {
        assert QueueSeen(s.db.orders, s.books[x].bids, seen) && QueueSeen(s.db.orders, s.books[x].asks, seen);
      }
    }
  }

  /** An order that was handled before stays handled: it rests on, or the trade finished it. */
  lemma HandledAfter(ms: Markets, s: State, s1: State, seen: set<Command>, symbol: Symbol, t: Taker, limit: Option<int>, want: int, c: Command)
    requires Sync(ms, s, seen) && SettledInBook(s, s1, symbol, t, limit, want) && c in seen
    requires !Over(s, t.id) && !InBook(BookOf(s.books, symbol), t.id)
    ensures Handled(s1, c)
  {
    hide RecordsOk, LocksMatch, Match, Uncrossed, DisjointIds;
    var b := BookOf(s.books, symbol);
    BookOfSync(ms, s, seen, symbol);
    if !Over(s, c.orderId) {
      var o := s.db.orders[c.orderId];
      assert Terms(s1.db.orders[c.orderId]) == Terms(o);
      if o.market == symbol {
        var q := b.Queue(o.side);
        var e := RestingEntry(q, c.orderId);
        if o.side == t.row.side {
          RestsMeans(BookOf(s1.books, symbol).Queue(o.side), c.orderId);
        } else {
          assert c.orderId != t.id;
          MatchPerId(q, t.row.side, limit, want, c.orderId);
          var i :| 0 <= i < |q| && q[i] == e;
          RestingAt(q, i);
        }
      }
    }
  }

  lemma SyncAfter(ms: Markets, s: State, s1: State, seen: set<Command>, symbol: Symbol, t: Taker, limit: Option<int>, want: int, c: Command)
    requires Sync(ms, s, seen) && SettledInBook(s, s1, symbol, t, limit, want)
    requires Inv(ms, s1) && s.db.outbox <= s1.db.outbox
    requires !Over(s, t.id) && !InBook(BookOf(s.books, symbol), t.id)
    requires s.db.orders[t.id].commandId.Some? && c == SubmitOf(s.db.orders, t.id) && Published(s.db, c) && Handled(s1, c)
    ensures Sync(ms, s1, seen + {c})
  {
    hide Inv, ExactBooks, BooksSeen, SettledInBook, Over, Handled, InBook;
    ExactAfter(ms, s, s1, seen, symbol, t, limit, want);
    SeenAfter(ms, s, s1, seen, symbol, t, limit, want, seen + {c});
    forall x | x in seen + {c} ensures Published(s1.db, x) && Handled(s1, x) {
      if x in seen {
        HandledAfter(ms, s, s1, seen, symbol, t, limit, want, x);
      }
    }
  }

  // -------------------------------------------------------------- the commands

  /** What adding an order does to its own side: the old entries stay and only the residue is new. */
  lemma AddedOwnSide(b: Book, id: nat, side: Side, price: int, qty: int)
    requires Add(b, id, side, price, qty).Added?
    ensures var a := Add(b, id, side, price, qty);
            && (forall e :: e in a.book.Queue(side) ==> e in b.Queue(side) || (e == Entry(id, price, a.leave) && a.leave > 0))
            && (forall e :: e in b.Queue(side) ==> e in a.book.Queue(side) && e.id != id)
            && (a.leave > 0 ==> Rests(a.book.Queue(side), id))
            && a.book.Queue(side.Opposite()) == Match(b.Queue(side.Opposite()), side, Some(price), qty).queue
            && a.fills == Match(b.Queue(side.Opposite()), side, Some(price), qty).fills
  {
    hide Match, Insert;
    var a := Add(b, id, side, price, qty);
    var rest := Entry(id, price, a.leave);
    InsertMembers(side, b.Queue(side), rest);
    RestsMeans(b.Queue(side), id);
    RestsMeans(a.book.Queue(side), id);
    if a.leave > 0 {
      assert rest in a.book.Queue(side);
    }
  }

  lemma LimitSync(ms: Markets, s: State, seen: set<Command>, m: Market, t: Taker, c: Command)
    requires Sync(ms, s, seen) && TakerOk(ms, m, s.db.orders, t) && t.row.orderType.LIMIT? && t.row.commandId.Some?
    requires c == SubmitOf(s.db.orders, t.id) && Published(s.db, c)
    requires SettleLimit(s, m, t, m.symbol, c.commandId).outcome == Committed
    ensures Sync(ms, SettleLimit(s, m, t, m.symbol, c.commandId).state, seen + {c})
  {
    hide Match, Add, InBook, Rests, SettleFills, SettleLimit, DbOk, BooksOk, ExactBooks, BooksSeen;
    var b := BookOf(s.books, m.symbol);
    CommittedLimitSettled(ms, s, m, t, c.commandId);
    SettleLimitCommits(ms, s, m, t, c.commandId);
    var s1 := SettleLimit(s, m, t, m.symbol, c.commandId).state;
    AddedOwnSide(b, t.id, t.row.side, t.row.price.value, t.row.leaveQty);
    AddedNotResting(b, t.id, t.row.side, t.row.price.value, t.row.leaveQty);
    assert Terms(s1.db.orders[t.id]) == Terms(s.db.orders[t.id]);
    SyncAfter(ms, s, s1, seen, m.symbol, t, t.row.price, t.row.leaveQty, c);
  }

  lemma AddedNotResting(b: Book, id: nat, side: Side, price: int, qty: int)
    requires Add(b, id, side, price, qty).Added?
    ensures !InBook(b, id)
  {
  }

  lemma MarketSync(ms: Markets, s: State, seen: set<Command>, m: Market, t: Taker, c: Command)
    requires Sync(ms, s, seen) && TakerOk(ms, m, s.db.orders, t) && !t.row.orderType.LIMIT? && t.row.commandId.Some?
    requires c == SubmitOf(s.db.orders, t.id) && Published(s.db, c)
    requires SettleMarket(s, m, t, m.symbol, c.commandId).outcome == Committed
    ensures Sync(ms, SettleMarket(s, m, t, m.symbol, c.commandId).state, seen + {c})
  {
    hide Match, DbOk, SettleFills, SettleMarket, MarketLevels, ExactBooks, BooksSeen, BookOk;
    var b := BookOf(s.books, m.symbol);
    BookOfOk(s.db.orders, s.books, m.symbol);
    SettleMarketCommits(ms, s, m, t, c.commandId);
    MarketOrderNotInBook(s.db.orders, m.symbol, b, t.id);
    RestsMeans(b.Queue(t.row.side), t.id);
    var s1 := SettleMarket(s, m, t, m.symbol, c.commandId).state;
    SyncAfter(ms, s, s1, seen, m.symbol, t, None, WalkQty(s, m.symbol, t), c);
  }

  /** Nothing but the terms and the books matters; both only grow here. */
  lemma SyncExtended(ms: Markets, s: State, s1: State, seen: set<Command>)
    requires Sync(ms, s, seen) && Inv(ms, s1) && s1.books == s.books && s.db.outbox <= s1.db.outbox
    requires forall id :: id in s.db.orders ==> id in s1.db.orders && s1.db.orders[id] == s.db.orders[id]
    ensures Sync(ms, s1, seen)
  {
    hide RecordsOk, LocksMatch, OrdersOk;
    forall x | x in s.books
      ensures ExactQueue(s1.db.orders, s.books[x].bids) && ExactQueue(s1.db.orders, s.books[x].asks)
      ensures QueueSeen(s1.db.orders, s.books[x].bids, seen) && QueueSeen(s1.db.orders, s.books[x].asks, seen)
    {
      assert ExactQueue(s.db.orders, s.books[x].bids) && ExactQueue(s.db.orders, s.books[x].asks);
    }
    forall c | c in seen ensures Published(s1.db, c) && Handled(s1, c) {
      assert Handled(s, c);
    }
  }

  lemma CancelledQueue(orders: map<OrderId, Order>, after: map<OrderId, Order>, q: seq<Entry>, q1: seq<Entry>, id: OrderId, seen: set<Command>)
    requires ExactQueue(orders, q) && QueueSeen(orders, q, seen)
    requires forall e :: e in q1 ==> e in q
    requires id in orders && after == orders[id := orders[id].(status := CANCELLED)]
    ensures ExactQueue(after, q1) && QueueSeen(after, q1, seen)
  {
  }

  lemma CancelledBooks(ms: Markets, s: State, seen: set<Command>, id: OrderId)
    requires Sync(ms, s, seen) && id in s.db.orders
    ensures var symbol := s.db.orders[id].market;
            var after := s.db.orders[id := s.db.orders[id].(status := CANCELLED)];
            var books := s.books[symbol := CancelInBook(BookOf(s.books, symbol), id)];
            ExactBooks(after, books) && BooksSeen(after, books, seen)
  {
    var symbol := s.db.orders[id].market;
    var b := BookOf(s.books, symbol);
    BookOfSync(ms, s, seen, symbol);
    CancelKeepsBookOk(s.db.orders, symbol, b, id);
    var b1 := CancelInBook(b, id);
    var after := s.db.orders[id := s.db.orders[id].(status := CANCELLED)];
    var books := s.books[symbol := b1];
    forall x | x in books
      ensures ExactQueue(after, books[x].bids) && ExactQueue(after, books[x].asks)
      ensures QueueSeen(after, books[x].bids, seen) && QueueSeen(after, books[x].asks, seen)
    {
      var was := if x == symbol then b else s.books[x];
      CancelledQueue(s.db.orders, after, was.bids, books[x].bids, id, seen);
      CancelledQueue(s.db.orders, after, was.asks, books[x].asks, id, seen);
    }
  }

  lemma SeenMonotone(orders: map<OrderId, Order>, books: map<Symbol, Book>, seen: set<Command>, more: set<Command>)
    requires BooksSeen(orders, books, seen) && seen <= more
    ensures BooksSeen(orders, books, more)
  {
  }

  lemma CancelSync(ms: Markets, s: State, seen: set<Command>, c: Command)
    requires Sync(ms, s, seen) && c.CancelOrder? && Published(s.db, c)
    requires SettleCancel(ms, s, c).outcome == Committed
    ensures Sync(ms, SettleCancel(ms, s, c).state, seen + {c})
  {
    hide Match, RecordsOk, Release, CancelInBook, ExactBooks, BooksSeen, CancelEvents;
    var s1 := SettleCancel(ms, s, c).state;
    CancelKeeps(ms, s, c);
    CancelledBooks(ms, s, seen, c.orderId);
    SeenMonotone(s1.db.orders, s1.books, seen, seen + {c});
    forall x | x in seen + {c} ensures Published(s1.db, x) && Handled(s1, x) {
      if x != c && x.orderId != c.orderId {
        CancelLeavesOthers(ms, s, c, x);
      }
    }
  }

  /** Cancelling one order takes no other one out of the book. */
  lemma CancelLeavesOthers(ms: Markets, s: State, c: Command, x: Command)
    requires Inv(ms, s) && Handled(s, x) && x.orderId != c.orderId && c.CancelOrder?
    requires SettleCancel(ms, s, c).outcome == Committed
    ensures Handled(SettleCancel(ms, s, c).state, x)
  {
    hide Match, RecordsOk, Release;
    var s1 := SettleCancel(ms, s, c).state;
    var o, gone := s.db.orders[x.orderId], s.db.orders[c.orderId];
    if !Over(s, x.orderId) && o.market == gone.market {
      var b := BookOf(s.books, o.market);
      BookOfOk(s.db.orders, s.books, o.market);
      var e := RestingEntry(b.Queue(o.side), x.orderId);
      RemoveMembers(b.bids, c.orderId);
      RemoveMembers(b.asks, c.orderId);
      RestsMeans(CancelInBook(b, c.orderId).Queue(o.side), x.orderId);
    }
  }

  lemma SubmitSync(ms: Markets, s: State, seen: set<Command>, c: Command)
    requires Sync(ms, s, seen) && c !in seen && Published(s.db, c) && c.Submit? && !Over(s, c.orderId)
    requires SettleSubmit(ms, s, c).outcome != Aborted
    ensures Sync(ms, SettleSubmit(ms, s, c).state, seen + {c})
  {
    hide Match, RecordsOk, ExactBooks, BooksSeen, BooksOk, SettleFills;
    PublishedOk(ms, s, c);
    var t := Taker(c.orderId, s.db.orders[c.orderId]);
    assert OrderOk(ms, t.row);
    if t.row.orderType.LIMIT? {
      FirstSubmitNotRefused(ms, s, seen, t.id);
      LimitSync(ms, s, seen, ms[c.symbol], t, c);
    } else {
      MarketSync(ms, s, seen, ms[c.symbol], t, c);
    }
  }

  /** Processing a command for the first time, without an abort, leaves it handled. */
  lemma ProcessSync(ms: Markets, s: State, seen: set<Command>, c: Command)
    requires Sync(ms, s, seen) && c !in seen && Published(s.db, c)
    requires Deliver(ms, s, c).outcome != Aborted
    ensures Sync(ms, Deliver(ms, s, c).state, seen + {c})
  {
    hide SettleLimit, SettleMarket, Release, CancelInBook;
    PublishedOk(ms, s, c);
    if Over(s, c.orderId) {
      assert Deliver(ms, s, c).state == s;
      SeenGrows(ms, s, seen, c);
    } else if c.CancelOrder? {
      CancelSync(ms, s, seen, c);
    } else {
      SubmitSync(ms, s, seen, c);
    }
  }

  lemma PublishedOk(ms: Markets, s: State, c: Command)
    requires Inv(ms, s) && Published(s.db, c)
    ensures CommandOk(s.db.orders, c) && OrderOk(ms, s.db.orders[c.orderId]) && s.db.orders[c.orderId].commandId.Some?
  {
  }

  lemma SeenGrows(ms: Markets, s: State, seen: set<Command>, c: Command)
    requires Sync(ms, s, seen) && Published(s.db, c) && Over(s, c.orderId)
    ensures Sync(ms, s, seen + {c})
  {
    SeenMonotone(s.db.orders, s.books, seen, seen + {c});
  }

  /** An order whose SUBMIT was not processed yet does not rest. */
  lemma FirstSubmitNotRefused(ms: Markets, s: State, seen: set<Command>, id: OrderId)
    requires Sync(ms, s, seen) && id in s.db.orders && s.db.orders[id].commandId.Some?
    requires SubmitOf(s.db.orders, id) !in seen
    ensures !InBook(BookOf(s.books, s.db.orders[id].market), id)
  {
    var b := BookOf(s.books, s.db.orders[id].market);
    BookOfSync(ms, s, seen, s.db.orders[id].market);
    RestsMeans(b.bids, id);
    RestsMeans(b.asks, id);
  }

  lemma ApiSync(ms: Markets, s: State, seen: set<Command>, a: Action)
    requires Sync(ms, s, seen) && (a.Place? || a.AskCancel?)
    ensures Sync(ms, Step(ms, s, a), seen)
  {
    hide Inv, Validate, LockReservation, CommandIdUsed, Reboot, Deliver, BooksAfterFailure, ExactBooks, BooksSeen, Handled, Conserved;
    StepKeepsAll(ms, s, a);
    SyncExtended(ms, s, Step(ms, s, a), seen);
  }

  lemma InitialSync(ms: Markets, s: State)
    requires Initial(ms, s)
    ensures Sync(ms, s, {})
  {
    InitialInv(ms, s);
  }
}
