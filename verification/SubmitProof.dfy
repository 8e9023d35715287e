/** The invariant, conservation and order progress across one SUBMIT command. */
module SubmitProof {
  import opened Wrappers
  import opened OrderBook
  import opened MarketSweep
  import opened Ledger
  import opened LedgerFacts
  import opened SettleFacts
  import opened Settlement
  import opened Invariant
  import opened BookLink
  import opened SubmitFacts

  /** The asset total: what users hold plus the fees taken so far. */
  ghost function Total(ms: Markets, db: Db, a: Asset): int {
    Supply(db.wallets, a) + FeesTaken(ms, db.trades, a)
  }

  ghost predicate Conserved(ms: Markets, before: Db, after: Db) {
    forall a :: Total(ms, after, a) == Total(ms, before, a)
  }

  /** What one processed command keeps. */
  ghost predicate Kept(ms: Markets, s: State, r: Settled) {
    && Inv(ms, r.state)
    && Progress(s.db.orders, r.state.db.orders)
    && Conserved(ms, s.db, r.state.db)
    && (r.outcome != Committed ==> r.state.db == s.db)
  }

  lemma SelfProgress(orders: map<OrderId, Order>)
    ensures Progress(orders, orders)
  {
  }

  // ------------------------------------------------------------------- books

  lemma BooksAfter(before: map<OrderId, Order>, after: map<OrderId, Order>, books: map<Symbol, Book>, symbol: Symbol,
                   t: Taker, limit: Option<int>, want: int, b1: Book)
    requires BooksOk(before, books) && want >= 0
    requires t.id in before && before[t.id].market == symbol
    requires OnlyTraded(before, after, t.id, Match(BookOf(books, symbol).Queue(t.row.side.Opposite()), t.row.side, limit, want).fills)
    requires BookOk(after, symbol, b1)
    ensures BooksOk(after, books[symbol := b1])
  {
    BookOfOk(before, books, symbol);
    var now := books[symbol := b1];
    forall x | x in now ensures BookOk(after, x, now[x]) {
      if x != symbol {
        OtherBookOk(before, after, BookOf(books, symbol), symbol, t, limit, want, x, books[x]);
      }
    }
  }

  lemma BooksUnchanged(orders: map<OrderId, Order>, books: map<Symbol, Book>, symbol: Symbol, b1: Book)
    requires BooksOk(orders, books) && BookOk(orders, symbol, b1)
    ensures BooksOk(orders, books[symbol := b1])
  {
  }

  /** The book after a settled limit order, residue included. */
  lemma LimitBookOk(before: map<OrderId, Order>, after: map<OrderId, Order>, symbol: Symbol, b: Book, t: Taker)
    requires BookOk(before, symbol, b) && t.row.price.Some? && t.row.leaveQty > 0
    requires Add(b, t.id, t.row.side, t.row.price.value, t.row.leaveQty).Added?
    requires var m := Match(b.Queue(t.row.side.Opposite()), t.row.side, t.row.price, t.row.leaveQty);
             && OnlyTraded(before, after, t.id, m.fills)
             && (m.leave > 0 ==> EntryOk(after, symbol, t.row.side, Entry(t.id, t.row.price.value, m.leave)))
    ensures BookOk(after, symbol, Add(b, t.id, t.row.side, t.row.price.value, t.row.leaveQty).book)
  {
    var side, price := t.row.side, t.row.price.value;
    AddKeepsWellFormed(b, t.id, side, price, t.row.leaveQty);
    WalkedQueueOk(before, after, b, symbol, t, t.row.price, t.row.leaveQty);
    var m := Match(b.Queue(side.Opposite()), side, t.row.price, t.row.leaveQty);
    InsertMembers(side, b.Queue(side), Entry(t.id, price, m.leave));
  }

  // ------------------------------------------------------------ conservation

  lemma CommitConserves(ms: Markets, db: Db, m: Market, t: Taker, fills: seq<Fill>, cmd: CommandId, after: Db)
    requires TakerOk(ms, m, db.orders, t) && GoodFills(db.orders, t, fills)
    requires SettleFills(db, m, t, fills, cmd, 0).Some?
    requires after.trades == SettleFills(db, m, t, fills, cmd, 0).value.trades
    requires forall a :: Supply(after.wallets, a) == Supply(SettleFills(db, m, t, fills, cmd, 0).value.wallets, a)
    ensures Conserved(ms, db, after)
  {
    forall a ensures Total(ms, after, a) == Total(ms, db, a) {
      SettleFillsConserve(ms, db, m, t, fills, cmd, 0, a);
    }
  }

  // ------------------------------------------------------------ limit orders

  lemma SettleLimitKeeps(ms: Markets, s: State, m: Market, t: Taker, cmd: CommandId)
    requires Inv(ms, s) && TakerOk(ms, m, s.db.orders, t) && t.row.orderType.LIMIT? && t.row.commandId == Some(cmd)
    ensures Kept(ms, s, SettleLimit(s, m, t, m.symbol, cmd))
  {
    var book := BookOf(s.books, m.symbol);
    BookOfOk(s.db.orders, s.books, m.symbol);
    SelfProgress(s.db.orders);
    var a := Add(book, t.id, t.row.side, t.row.price.value, t.row.leaveQty);
    var r := SettleLimit(s, m, t, m.symbol, cmd);
    if a.Refused? {
      BooksUnchanged(s.db.orders, s.books, m.symbol, book);
    } else {
      var q := book.Queue(t.row.side.Opposite());
      MatchFillsGood(ms, m, s.db.orders, t, book, t.row.leaveQty);
      MatchTotal(q, t.row.side, t.row.price, t.row.leaveQty);
      LeaveWithin(q, t.row.side, t.row.price, t.row.leaveQty);
      if SettleFills(s.db, m, t, a.fills, cmd, 0).None? {
        AddKeepsBookOk(s.db.orders, m.symbol, book, t.id);
        BooksUnchanged(s.db.orders, s.books, m.symbol, a.book);
      } else {
        SettleLimitCommits(ms, s, m, t, cmd);
      }
    }
  }

  /** A limit order whose trades all settled: what is written and how the book looks. */
  ghost predicate LimitSettled(ms: Markets, s: State, m: Market, t: Taker, cmd: CommandId, a: AddResult) {
    && t.row.price.Some?
    && a == Add(BookOf(s.books, m.symbol), t.id, t.row.side, t.row.price.value, t.row.leaveQty)
    && a.Added? && GoodFills(s.db.orders, t, a.fills)
    && SettleFills(s.db, m, t, a.fills, cmd, 0).Some?
    && a.leave == t.row.leaveQty - FillTotal(a.fills) && 0 <= a.leave <= t.row.leaveQty
  }

  lemma LimitCommitted(ms: Markets, s: State, m: Market, t: Taker, cmd: CommandId, a: AddResult)
    requires TakerOk(ms, m, s.db.orders, t) && t.row.orderType.LIMIT? && t.row.price.Some?
    requires LimitSettled(ms, s, m, t, cmd, a)
    ensures var r := SettleLimit(s, m, t, m.symbol, cmd);
            var d := SettleFills(s.db, m, t, a.fills, cmd, 0).value;
            && r.outcome == Committed && r.state.books == s.books[m.symbol := a.book]
            && CommittedFrom(s.db, d, t, AfterMatch(t.row, a.leave, t.row.quantity), d.wallets, m.symbol, a.book, r.state.db)
  {
    SettleFillsRows(s.db, m, t, a.fills, cmd, 0);
    forall i | 0 <= i < |a.fills| ensures a.fills[i].makerId != t.id {
      assert GoodFill(s.db.orders, t, a.fills[i]);
    }
    FilledAbsent(a.fills, t.id);
  }

  lemma LimitBooksKept(ms: Markets, s: State, m: Market, t: Taker, a: AddResult, after: map<OrderId, Order>)
    requires BooksOk(s.db.orders, s.books) && TakerOk(ms, m, s.db.orders, t) && t.row.orderType.LIMIT?
    requires a == Add(BookOf(s.books, m.symbol), t.id, t.row.side, t.row.price.value, t.row.leaveQty) && a.Added?
    requires OnlyTraded(s.db.orders, after, t.id, a.fills)
    requires 0 <= a.leave <= t.row.leaveQty
    requires t.id in after && after[t.id] == AfterMatch(t.row, a.leave, t.row.quantity)
    ensures BooksOk(after, s.books[m.symbol := a.book])
  {
    var book := BookOf(s.books, m.symbol);
    BookOfOk(s.db.orders, s.books, m.symbol);
    LimitBookOk(s.db.orders, after, m.symbol, book, t);
    BooksAfter(s.db.orders, after, s.books, m.symbol, t, t.row.price, t.row.leaveQty, a.book);
  }

  lemma SettleLimitCommits(ms: Markets, s: State, m: Market, t: Taker, cmd: CommandId)
    requires Inv(ms, s) && TakerOk(ms, m, s.db.orders, t) && t.row.orderType.LIMIT? && t.row.commandId == Some(cmd)
    requires LimitSettled(ms, s, m, t, cmd, Add(BookOf(s.books, m.symbol), t.id, t.row.side, t.row.price.value, t.row.leaveQty))
    ensures Kept(ms, s, SettleLimit(s, m, t, m.symbol, cmd))
    ensures SettleLimit(s, m, t, m.symbol, cmd).outcome == Committed
    ensures var a := Add(BookOf(s.books, m.symbol), t.id, t.row.side, t.row.price.value, t.row.leaveQty);
            var r := SettleLimit(s, m, t, m.symbol, cmd).state;
            && OnlyTraded(s.db.orders, r.db.orders, t.id, a.fills)
            && r.books == s.books[m.symbol := a.book] && s.db.outbox <= r.db.outbox
            && t.id in r.db.orders && r.db.orders[t.id] == AfterMatch(t.row, a.leave, t.row.quantity)
  {
    var a := Add(BookOf(s.books, m.symbol), t.id, t.row.side, t.row.price.value, t.row.leaveQty);
    var after := SettleLimit(s, m, t, m.symbol, cmd).state.db;
    LimitCommitted(ms, s, m, t, cmd, a);
    LimitCommit(ms, s.db, m, t, a.fills, cmd, a.leave, a.book, after);
    SettleFillsRows(s.db, m, t, a.fills, cmd, 0);
    CommitConserves(ms, s.db, m, t, a.fills, cmd, after);
    LimitBooksKept(ms, s, m, t, a, after.orders);
  }

  lemma CommittedLimitSettled(ms: Markets, s: State, m: Market, t: Taker, cmd: CommandId)
    requires Inv(ms, s) && TakerOk(ms, m, s.db.orders, t) && t.row.orderType.LIMIT?
    requires SettleLimit(s, m, t, m.symbol, cmd).outcome == Committed
    ensures LimitSettled(ms, s, m, t, cmd, Add(BookOf(s.books, m.symbol), t.id, t.row.side, t.row.price.value, t.row.leaveQty))
  {
    var book := BookOf(s.books, m.symbol);
    BookOfOk(s.db.orders, s.books, m.symbol);
    var q := book.Queue(t.row.side.Opposite());
    MatchFillsGood(ms, m, s.db.orders, t, book, t.row.leaveQty);
    MatchTotal(q, t.row.side, t.row.price, t.row.leaveQty);
    LeaveWithin(q, t.row.side, t.row.price, t.row.leaveQty);
  }

  // ----------------------------------------------------------- MARKET orders

  /** What a committed sweep amounts to. */
  ghost predicate SweepSettled(db: Db, b: Book, m: Market, t: Taker, levels: seq<Level>, k: nat, remaining: int, cmd: CommandId, idx: nat) {
    var r := SweepLevels(db, b, m, t, levels, k, remaining, cmd, idx);
    var sw := Sweep(b, t.id, t.row.side, levels, k, remaining);
    && !sw.refused && r.book == sw.book && r.remaining == sw.remaining
    && r.db == SettleFills(db, m, t, sw.fills, cmd, idx)
  }

  lemma SweepLevelsUnroll(db: Db, b: Book, m: Market, t: Taker, levels: seq<Level>, k: nat, remaining: int, cmd: CommandId, idx: nat,
                          a: AddResult, d: Db)
    requires levels != [] && remaining > 0
    requires a == Add(b, SweepId(t.id, k), t.row.side, levels[0].price, Min(levels[0].qty, remaining)) && a.Added?
    requires SettleFills(db, m, t, a.fills, cmd, idx) == Some(d)
    ensures SweepLevels(db, b, m, t, levels, k, remaining, cmd, idx)
            == SweepLevels(d, DropResidue(a.book, SweepId(t.id, k), a.leave), m, t, levels[1..], k + 1,
                           remaining - Min(levels[0].qty, remaining), cmd, idx + |a.fills|)
  {
    hide Add, SettleFills, DropResidue;
  }

  lemma SweepUnroll(b: Book, orderId: OrderId, side: Side, levels: seq<Level>, k: nat, remaining: int, a: AddResult)
    requires levels != [] && remaining > 0
    requires a == Add(b, SweepId(orderId, k), side, levels[0].price, Min(levels[0].qty, remaining)) && a.Added?
    ensures var sw := Sweep(DropResidue(a.book, SweepId(orderId, k), a.leave), orderId, side, levels[1..], k + 1,
                            remaining - Min(levels[0].qty, remaining));
            Sweep(b, orderId, side, levels, k, remaining) == sw.(fills := a.fills + sw.fills)
  {
  }

  lemma SweepCommittedHead(db: Db, b: Book, m: Market, t: Taker, levels: seq<Level>, k: nat, remaining: int, cmd: CommandId, idx: nat,
                           a: AddResult, d: Db)
    requires levels != [] && remaining > 0
    requires a == Add(b, SweepId(t.id, k), t.row.side, levels[0].price, Min(levels[0].qty, remaining)) && a.Added?
    requires SettleFills(db, m, t, a.fills, cmd, idx) == Some(d)
    requires SweepSettled(d, DropResidue(a.book, SweepId(t.id, k), a.leave), m, t, levels[1..], k + 1,
                          remaining - Min(levels[0].qty, remaining), cmd, idx + |a.fills|)
    ensures SweepSettled(db, b, m, t, levels, k, remaining, cmd, idx)
  {
    hide Add, SettleFills, DropResidue;
    SweepLevelsUnroll(db, b, m, t, levels, k, remaining, cmd, idx, a, d);
    SweepUnroll(b, t.id, t.row.side, levels, k, remaining, a);
    var b1 := DropResidue(a.book, SweepId(t.id, k), a.leave);
    var sw := Sweep(b1, t.id, t.row.side, levels[1..], k + 1, remaining - Min(levels[0].qty, remaining));
    SettleFillsAppend(db, m, t, a.fills, sw.fills, cmd, idx);
  }

  /** A committed sweep is one settlement of everything the book-level sweep traded. */
  lemma {:induction false} SweepCommitted(db: Db, b: Book, m: Market, t: Taker, levels: seq<Level>, k: nat, remaining: int, cmd: CommandId, idx: nat)
    requires SweepLevels(db, b, m, t, levels, k, remaining, cmd, idx).db.Some?
    ensures SweepSettled(db, b, m, t, levels, k, remaining, cmd, idx)
    decreases |levels|
  {
    hide Add, DropResidue;
    if levels != [] && remaining > 0 {
      var take := Min(levels[0].qty, remaining);
      var a := Add(b, SweepId(t.id, k), t.row.side, levels[0].price, take);
      var d := SettleFills(db, m, t, a.fills, cmd, idx).value;
      SweepLevelsUnroll(db, b, m, t, levels, k, remaining, cmd, idx, a, d);
      SweepCommitted(d, DropResidue(a.book, SweepId(t.id, k), a.leave), m, t, levels[1..], k + 1, remaining - take, cmd, idx + |a.fills|);
      SweepCommittedHead(db, b, m, t, levels, k, remaining, cmd, idx, a, d);
    }
  }

  /** However far the sweep gets, the book stays covered by the unchanged rows. */
  lemma {:induction false} SweepKeepsBookOk(orders: map<OrderId, Order>, symbol: Symbol, db: Db, b: Book, m: Market, t: Taker,
                                            levels: seq<Level>, k: nat, remaining: int, cmd: CommandId, idx: nat)
    requires BookOk(orders, symbol, b)
    requires remaining > 0 ==> levels <= Levels(b.Queue(t.row.side.Opposite()))
    ensures BookOk(orders, symbol, SweepLevels(db, b, m, t, levels, k, remaining, cmd, idx).book)
    decreases |levels|
  {
    if levels != [] && remaining > 0 && !InBook(b, SweepId(t.id, k)) {
      SweepStep(b, t.id, t.row.side, levels, k, remaining);
      var take := Min(levels[0].qty, remaining);
      WalkKeepsBookOk(orders, symbol, b, t.row.side, None, take);
      var a := Add(b, SweepId(t.id, k), t.row.side, levels[0].price, take);
      var d := SettleFills(db, m, t, a.fills, cmd, idx);
      if d.Some? {
        SweepKeepsBookOk(orders, symbol, d.value, a.book, m, t, levels[1..], k + 1, remaining - take, cmd, idx + |a.fills|);
      }
    }
  }

  /** The final row of a MARKET order. */
  function MarketRow(t: Taker, remaining: int): Order {
    var o := AfterMatch(t.row, remaining, t.row.quantity);
    if remaining <= 0 then o else o.(status := if t.row.quantity == remaining then CANCELLED else FILLED)
  }

  lemma MarketRowOk(ms: Markets, o: Order, id: OrderId, remaining: int)
    requires OrderOk(ms, o) && !Terminal(o.status) && !o.orderType.LIMIT? && 0 <= remaining <= o.quantity
    ensures o.leaveQty == o.quantity && o.filledQty == 0
    ensures var r := MarketRow(Taker(id, o), remaining);
            && OrderOk(ms, r) && Terms(r) == Terms(o) && r.filledQty == o.quantity - remaining && Terminal(r.status)
  {
  }

  /** Closing a MARKET order gives back what an ASK had locked and moves nothing else. */
  lemma FinishMarketWallets(ms: Markets, d: Db, m: Market, t: Taker, remaining: int)
    requires TakerOk(ms, m, d.orders, t) && !t.row.orderType.LIMIT? && 0 <= remaining <= t.row.quantity
    requires FinishMarket(d, m, t, remaining).Some?
    requires LocksMatch(ms, d.wallets, WithTaker(d.orders, t, remaining)) && WalletsOk(d.wallets)
    ensures var e := FinishMarket(d, m, t, remaining).value;
            && e == d.(wallets := e.wallets, orders := d.orders[t.id := MarketRow(t, remaining)])
            && LocksMatch(ms, e.wallets, e.orders) && WalletsOk(e.wallets)
            && forall a :: Supply(e.wallets, a) == Supply(d.wallets, a)
  {
    var e := FinishMarket(d, m, t, remaining).value;
    var o := MarketRow(t, remaining);
    CloseTakerLocks(ms, d.wallets, d.orders, m, t, remaining, o, e.wallets);
    if remaining > 0 && t.row.side.Ask? {
      forall a ensures Supply(e.wallets, a) == Supply(d.wallets, a) {
        UpdateMovesSupply(d.wallets, WalletKey(t.row.userId, m.baseAsset), BaseAmount(remaining), -BaseAmount(remaining), a);
      }
    }
  }

  /** The trades of a committed MARKET order are those of one direct walk. */
  lemma MarketWalk(ms: Markets, s: State, m: Market, t: Taker, cmd: CommandId)
    requires Inv(ms, s) && TakerOk(ms, m, s.db.orders, t) && !t.row.orderType.LIMIT?
    requires var book := BookOf(s.books, m.symbol);
             SweepLevels(s.db, book, m, t, MarketLevels(book, t.row.side), 0, t.row.quantity, cmd, 0).db.Some?
    ensures var book := BookOf(s.books, m.symbol);
            var w := SweepQty(MarketLevels(book, t.row.side), t.row.quantity);
            var walk := Match(book.Queue(t.row.side.Opposite()), t.row.side, None, w);
            var sw := SweepLevels(s.db, book, m, t, MarketLevels(book, t.row.side), 0, t.row.quantity, cmd, 0);
            && 0 <= w <= t.row.quantity
            && walk.leave == 0 && FillTotal(walk.fills) == w
            && GoodFills(s.db.orders, t, walk.fills)
            && sw == SweepState(SettleFills(s.db, m, t, walk.fills, cmd, 0),
                                book.With(t.row.side.Opposite(), walk.queue), t.row.quantity - w)
  {
    var book := BookOf(s.books, m.symbol);
    BookOfOk(s.db.orders, s.books, m.symbol);
    var levels := MarketLevels(book, t.row.side);
    var q := book.Queue(t.row.side.Opposite());
    TopLevelsPrefix(q);
    SweepCommitted(s.db, book, m, t, levels, 0, t.row.quantity, cmd, 0);
    SweepRefinesWalk(book, t.id, t.row.side, levels, 0, t.row.quantity);
    var w := SweepQty(levels, t.row.quantity);
    MatchTotal(q, t.row.side, None, w);
    MarketOrderNotInBook(s.db.orders, m.symbol, book, t.id);
    MatchFillsGood(ms, m, s.db.orders, t, book, w);
  }

  /** The direct walk a MARKET order amounts to, and the quantity it takes. */
  function WalkQty(s: State, symbol: Symbol, t: Taker): int {
    SweepQty(MarketLevels(BookOf(s.books, symbol), t.row.side), t.row.quantity)
  }

  function Walk(s: State, symbol: Symbol, t: Taker): Matched {
    Match(BookOf(s.books, symbol).Queue(t.row.side.Opposite()), t.row.side, None, WalkQty(s, symbol, t))
  }

  function WalkedBook(s: State, symbol: Symbol, t: Taker): Book {
    BookOf(s.books, symbol).With(t.row.side.Opposite(), Walk(s, symbol, t).queue)
  }

  /** What a committed MARKET order writes: everything as if its walk had been settled in one go. */
  ghost predicate MarketWritten(ms: Markets, s: State, m: Market, t: Taker, cmd: CommandId, d: Db, e: Db) {
    var walk := Walk(s, m.symbol, t);
    var rem := t.row.quantity - WalkQty(s, m.symbol, t);
    var r := SettleMarket(s, m, t, m.symbol, cmd);
    && 0 <= rem <= t.row.quantity
    && walk.leave == 0 && FillTotal(walk.fills) == t.row.quantity - rem && GoodFills(s.db.orders, t, walk.fills)
    && SettleFills(s.db, m, t, walk.fills, cmd, 0) == Some(d)
    && t.id in d.orders && d.orders[t.id] == t.row
    && FinishMarket(d, m, t, rem) == Some(e)
    && r.state.books == s.books[m.symbol := WalkedBook(s, m.symbol, t)]
    && CommittedFrom(s.db, d, t, MarketRow(t, rem), e.wallets, m.symbol, WalkedBook(s, m.symbol, t), r.state.db)
  }

  lemma TakerRowUntouched(ms: Markets, db: Db, m: Market, t: Taker, fills: seq<Fill>, cmd: CommandId)
    requires TakerOk(ms, m, db.orders, t) && GoodFills(db.orders, t, fills)
    requires SettleFills(db, m, t, fills, cmd, 0).Some?
    ensures var d := SettleFills(db, m, t, fills, cmd, 0).value;
            t.id in d.orders && d.orders[t.id] == t.row && |db.trades| <= |d.trades|
  {
    SettleFillsRows(db, m, t, fills, cmd, 0);
    forall i | 0 <= i < |fills| ensures fills[i].makerId != t.id {
      assert GoodFill(db.orders, t, fills[i]);
    }
    FilledAbsent(fills, t.id);
  }

  lemma SettleMarketShape(s: State, m: Market, t: Taker, cmd: CommandId, b1: Book, rem: int, d: Db, e: Db)
    requires SweepLevels(s.db, BookOf(s.books, m.symbol), m, t, MarketLevels(BookOf(s.books, m.symbol), t.row.side), 0, t.row.quantity, cmd, 0)
             == SweepState(Some(d), b1, rem)
    requires t.id in d.orders && d.orders[t.id] == t.row && |s.db.trades| <= |d.trades|
    requires FinishMarket(d, m, t, rem) == Some(e)
    ensures var r := SettleMarket(s, m, t, m.symbol, cmd);
            && r.state.books == s.books[m.symbol := b1]
            && CommittedFrom(s.db, d, t, MarketRow(t, rem), e.wallets, m.symbol, b1, r.state.db)
  {
  }

  lemma MarketCommitted(ms: Markets, s: State, m: Market, t: Taker, cmd: CommandId) returns (d: Db, e: Db)
    requires Inv(ms, s) && TakerOk(ms, m, s.db.orders, t) && !t.row.orderType.LIMIT?
    requires SettleMarket(s, m, t, m.symbol, cmd).outcome == Committed
    ensures MarketWritten(ms, s, m, t, cmd, d, e)
  {
    hide Match, MarketLevels, SweepQty, SettleFills, SweepLevels, SubmitEvents, DbOk, BooksOk;
    MarketWalk(ms, s, m, t, cmd);
    var fills := Walk(s, m.symbol, t).fills;
    d := SettleFills(s.db, m, t, fills, cmd, 0).value;
    TakerRowUntouched(ms, s.db, m, t, fills, cmd);
    var rem := t.row.quantity - WalkQty(s, m.symbol, t);
    e := FinishMarket(d, m, t, rem).value;
    SettleMarketShape(s, m, t, cmd, WalkedBook(s, m.symbol, t), rem, d, e);
  }

  lemma MarketBooksKept(ms: Markets, s: State, m: Market, t: Taker, w: int, after: map<OrderId, Order>)
    requires BooksOk(s.db.orders, s.books) && TakerOk(ms, m, s.db.orders, t) && !t.row.orderType.LIMIT? && w >= 0
    requires OnlyTraded(s.db.orders, after, t.id, Match(BookOf(s.books, m.symbol).Queue(t.row.side.Opposite()), t.row.side, None, w).fills)
    ensures var book := BookOf(s.books, m.symbol);
            var walk := Match(book.Queue(t.row.side.Opposite()), t.row.side, None, w);
            BooksOk(after, s.books[m.symbol := book.With(t.row.side.Opposite(), walk.queue)])
  {
    var book := BookOf(s.books, m.symbol);
    BookOfOk(s.db.orders, s.books, m.symbol);
    MarketOrderNotInBook(s.db.orders, m.symbol, book, t.id);
    WalkedQueueOk(s.db.orders, after, book, m.symbol, t, None, w);
    WalkKeepsBookOk(s.db.orders, m.symbol, book, t.row.side, None, w);
    var walk := Match(book.Queue(t.row.side.Opposite()), t.row.side, None, w);
    BooksAfter(s.db.orders, after, s.books, m.symbol, t, None, w, book.With(t.row.side.Opposite(), walk.queue));
  }

  lemma MarketWallets(ms: Markets, s: State, m: Market, t: Taker, cmd: CommandId, d: Db, e: Db)
    requires DbOk(ms, s.db) && TakerOk(ms, m, s.db.orders, t) && !t.row.orderType.LIMIT?
    requires MarketWritten(ms, s, m, t, cmd, d, e)
    ensures LocksMatch(ms, e.wallets, e.orders) && WalletsOk(e.wallets)
    ensures e.orders == d.orders[t.id := MarketRow(t, t.row.quantity - WalkQty(s, m.symbol, t))]
    ensures forall a :: Supply(e.wallets, a) == Supply(d.wallets, a)
  {
    hide Walk, SettleMarket, SettleFills, FinishMarket, RecordsOk, OrdersOk;
    var rem := t.row.quantity - WalkQty(s, m.symbol, t);
    MarketRowOk(ms, t.row, t.id, rem);
    TradesUnlock(ms, s.db, m, t, Walk(s, m.symbol, t).fills, cmd);
    FinishMarketWallets(ms, d, m, t, rem);
  }

  lemma MarketCommitKeeps(ms: Markets, s: State, m: Market, t: Taker, cmd: CommandId, d: Db, e: Db)
    requires DbOk(ms, s.db) && TakerOk(ms, m, s.db.orders, t) && !t.row.orderType.LIMIT? && t.row.commandId == Some(cmd)
    requires MarketWritten(ms, s, m, t, cmd, d, e)
    ensures var after := SettleMarket(s, m, t, m.symbol, cmd).state.db;
            && DbOk(ms, after) && Progress(s.db.orders, after.orders) && Conserved(ms, s.db, after)
            && OnlyTraded(s.db.orders, after.orders, t.id, Walk(s, m.symbol, t).fills)
  {
    hide Walk, SettleMarket, SettleFills, SubmitEvents, DbOk, Conserved, Progress, GoodFills, FinishMarket;
    var walk := Walk(s, m.symbol, t);
    var rem := t.row.quantity - WalkQty(s, m.symbol, t);
    MarketRowOk(ms, t.row, t.id, rem);
    MarketWallets(ms, s, m, t, cmd, d, e);
    var after := SettleMarket(s, m, t, m.symbol, cmd).state.db;
    CommitKeepsDbOk(ms, s.db, m, t, walk.fills, cmd, MarketRow(t, rem), e.wallets, m.symbol, WalkedBook(s, m.symbol, t), after);
    CommitConserves(ms, s.db, m, t, walk.fills, cmd, after);
  }

  lemma MarketCommitTail(ms: Markets, s: State, m: Market, t: Taker, cmd: CommandId, d: Db, e: Db)
    requires TakerOk(ms, m, s.db.orders, t) && !t.row.orderType.LIMIT?
    requires MarketWritten(ms, s, m, t, cmd, d, e)
    ensures var after := SettleMarket(s, m, t, m.symbol, cmd).state.db;
            s.db.outbox <= after.outbox && t.id in after.orders && Terminal(after.orders[t.id].status)
  {
    hide Walk, SettleMarket, SubmitEvents, FinishMarket, SettleFills;
    SettleFillsRows(s.db, m, t, Walk(s, m.symbol, t).fills, cmd, 0);
    MarketRowOk(ms, t.row, t.id, t.row.quantity - WalkQty(s, m.symbol, t));
  }

  lemma SettleMarketCommits(ms: Markets, s: State, m: Market, t: Taker, cmd: CommandId)
    requires Inv(ms, s) && TakerOk(ms, m, s.db.orders, t) && !t.row.orderType.LIMIT? && t.row.commandId == Some(cmd)
    requires SettleMarket(s, m, t, m.symbol, cmd).outcome == Committed
    ensures Kept(ms, s, SettleMarket(s, m, t, m.symbol, cmd))
    ensures var r := SettleMarket(s, m, t, m.symbol, cmd).state;
            && OnlyTraded(s.db.orders, r.db.orders, t.id, Walk(s, m.symbol, t).fills)
            && r.books == s.books[m.symbol := WalkedBook(s, m.symbol, t)] && s.db.outbox <= r.db.outbox
            && t.id in r.db.orders && Terminal(r.db.orders[t.id].status) && 0 <= WalkQty(s, m.symbol, t)
  {
    var d, e := MarketCommitted(ms, s, m, t, cmd);
    MarketCommitKeeps(ms, s, m, t, cmd, d, e);
    MarketCommitTail(ms, s, m, t, cmd, d, e);
    MarketBooksKept(ms, s, m, t, WalkQty(s, m.symbol, t), SettleMarket(s, m, t, m.symbol, cmd).state.db.orders);
  }

  lemma SettleMarketKeeps(ms: Markets, s: State, m: Market, t: Taker, cmd: CommandId)
    requires Inv(ms, s) && TakerOk(ms, m, s.db.orders, t) && !t.row.orderType.LIMIT? && t.row.commandId == Some(cmd)
    ensures Kept(ms, s, SettleMarket(s, m, t, m.symbol, cmd))
  {
    var r := SettleMarket(s, m, t, m.symbol, cmd);
    if r.outcome == Committed {
      SettleMarketCommits(ms, s, m, t, cmd);
    } else {
      var book := BookOf(s.books, m.symbol);
      BookOfOk(s.db.orders, s.books, m.symbol);
      var levels := MarketLevels(book, t.row.side);
      TopLevelsPrefix(book.Queue(t.row.side.Opposite()));
      SweepKeepsBookOk(s.db.orders, m.symbol, s.db, book, m, t, levels, 0, t.row.quantity, cmd, 0);
      BooksUnchanged(s.db.orders, s.books, m.symbol, SweepLevels(s.db, book, m, t, levels, 0, t.row.quantity, cmd, 0).book);
      SelfProgress(s.db.orders);
    }
  }

  /** Whatever happens to a SUBMIT command, the exchange stays in order. */
  lemma SubmitKeeps(ms: Markets, s: State, c: Command)
    requires Inv(ms, s) && c.Submit? && CommandOk(s.db.orders, c)
    ensures Kept(ms, s, SettleSubmit(ms, s, c))
  {
    SelfProgress(s.db.orders);
    var target := SubmitTarget(ms, s.db, c);
    if target.Some? {
      var t := target.value;
      assert OrderOk(ms, t.row);
      if t.row.orderType.LIMIT? {
        SettleLimitKeeps(ms, s, ms[c.symbol], t, c.commandId);
      } else {
        SettleMarketKeeps(ms, s, ms[c.symbol], t, c.commandId);
      }
    }
  }
}
