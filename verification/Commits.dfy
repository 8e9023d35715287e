/**
 When a SUBMIT commits. The database has CHECK constraints and a unique index
 that could refuse a settlement; these lemmas say exactly when they do.
 */
module Commits {
  import opened Wrappers
  import opened OrderBook
  import opened MarketSweep
  import opened Ledger
  import opened LedgerFacts
  import opened SettleFacts
  import opened Settlement
  import opened Invariant
  import opened BookLink
  import opened SubmitFacts
  import opened SubmitProof

  ghost predicate IdsUnused(ts: seq<Trade>, cmd: CommandId, idx: nat, n: nat) {
    forall i :: idx <= i < idx + n ==> !MatchIdUsed(ts, MatchId(cmd, i))
  }

  /** A command without trades on record can number all its trades. */
  lemma {:induction false} FirstUnusedAllUnused(ts: seq<Trade>, cmd: CommandId, i: nat)
    requires Numbered(ts) && !MatchIdUsed(ts, MatchId(cmd, 0))
    ensures !MatchIdUsed(ts, MatchId(cmd, i))
    decreases i
  {
    if i > 0 {
      FirstUnusedAllUnused(ts, cmd, i - 1);
      forall j | 0 <= j < |ts| ensures ts[j].matchId != MatchId(cmd, i) {
        assert j > 0 ==> ts[j - 1].matchId != MatchId(cmd, i - 1);
      }
    }
  }

  lemma IdsUnusedAfterOne(db: Db, m: Market, t: Taker, f: Fill, cmd: CommandId, idx: nat, n: nat)
    requires IdsUnused(db.trades, cmd, idx, n) && n > 0
    requires SettleFill(db, m, t, f, MatchId(cmd, idx)).Some?
    ensures IdsUnused(SettleFill(db, m, t, f, MatchId(cmd, idx)).value.trades, cmd, idx + 1, n - 1)
  {
  }

  /** What a walk costs a buyer. */
  function Cost(fills: seq<Fill>): int {
    if fills == [] then 0 else QuoteAmount(fills[0].price, fills[0].qty) + Cost(fills[1..])
  }

  /** A MARKET buyer can pay for a walk: before each trade the balance covers its price. */
  predicate CanPay(orders: map<OrderId, Order>, m: Market, t: Taker, fills: seq<Fill>, balance: int)
    decreases |fills|
  {
    fills == [] ||
    (&& fills[0].makerId in orders
     && balance + OwnProceeds(m, orders[fills[0].makerId], t, fills[0]) >= QuoteAmount(fills[0].price, fills[0].qty)
     && CanPay(orders, m, t, fills[1..], BalanceAfter(m, orders[fills[0].makerId], t, fills[0], balance)))
  }

  /** Only whose orders they are matters. */
  lemma {:induction false} CanPaySameUsers(a: map<OrderId, Order>, b: map<OrderId, Order>, m: Market, t: Taker, fills: seq<Fill>, balance: int)
    requires a.Keys == b.Keys && forall id :: id in a ==> a[id].userId == b[id].userId
    ensures CanPay(a, m, t, fills, balance) == CanPay(b, m, t, fills, balance)
    decreases |fills|
  {
    if fills != [] && fills[0].makerId in a {
      CanPaySameUsers(a, b, m, t, fills[1..], BalanceAfter(m, a[fills[0].makerId], t, fills[0], balance));
    }
  }

  ghost predicate NoSelfTrade(orders: map<OrderId, Order>, t: Taker, fills: seq<Fill>) {
    forall i :: 0 <= i < |fills| ==> fills[i].makerId in orders && orders[fills[i].makerId].userId != t.row.userId
  }

  /** For a buyer who meets no order of his own, that is: the balance covers the cost of the whole walk. */
  lemma {:induction false} CanPayIsCost(orders: map<OrderId, Order>, m: Market, t: Taker, fills: seq<Fill>, balance: int)
    requires m.baseAsset != m.quoteAsset && NoSelfTrade(orders, t, fills) && balance >= 0
    requires forall i :: 0 <= i < |fills| ==> fills[i].price > 0 && fills[i].qty > 0
    ensures CanPay(orders, m, t, fills, balance) <==> balance >= Cost(fills)
    decreases |fills|
  {
    if fills != [] {
      CostNonNegative(fills[1..]);
      if balance >= QuoteAmount(fills[0].price, fills[0].qty) {
        CanPayIsCost(orders, m, t, fills[1..], balance - QuoteAmount(fills[0].price, fills[0].qty));
      }
    }
  }

  lemma {:induction false} CostNonNegative(fills: seq<Fill>)
    requires forall i :: 0 <= i < |fills| ==> fills[i].price > 0 && fills[i].qty > 0
    ensures Cost(fills) >= 0
    decreases |fills|
  {
    if fills != [] {
      QuotePositive(fills[0].price, fills[0].qty);
      CostNonNegative(fills[1..]);
    }
  }

  lemma SettledStays(ms: Markets, db: Db, m: Market, t: Taker, f: Fill, cmd: CommandId, idx: nat, rem: int)
    requires TakerOk(ms, m, db.orders, t) && GoodFill(db.orders, t, f)
    requires WalletsOk(db.wallets) && OrdersOk(ms, db.orders)
    requires LocksMatch(ms, db.wallets, WithTaker(db.orders, t, rem))
    requires SettleFill(db, m, t, f, MatchId(cmd, idx)).Some?
    ensures var d := SettleFill(db, m, t, f, MatchId(cmd, idx)).value;
            && WalletsOk(d.wallets) && OrdersOk(ms, d.orders) && TakerOk(ms, m, d.orders, t)
            && LocksMatch(ms, d.wallets, WithTaker(d.orders, t, rem - f.qty))
  {
    var d := SettleFill(db, m, t, f, MatchId(cmd, idx)).value;
    LocksMatchIsNoGap(ms, db.wallets, WithTaker(db.orders, t, rem));
    var view := WithTaker(d.orders, t, rem - f.qty);
    forall k ensures LockGap(ms, d.wallets, view, k) == 0 {
      SettleFillLocks(ms, db, m, t, f, MatchId(cmd, idx), rem, k);
      assert LockGap(ms, db.wallets, WithTaker(db.orders, t, rem), k) == 0;
    }
    LocksMatchIsNoGap(ms, d.wallets, view);
    LegsKeepWalletsOk(db.wallets, m, db.orders[f.makerId], f.price, f.qty);
    LegsKeepWalletsOk(MakerLeg(db.wallets, m, db.orders[f.makerId], f.price, f.qty).value, m, t.row, f.price, f.qty);
  }

  lemma GoodFillsPositive(ms: Markets, orders: map<OrderId, Order>, t: Taker, fills: seq<Fill>)
    requires OrdersOk(ms, orders) && GoodFills(orders, t, fills)
    ensures forall i :: 0 <= i < |fills| ==> fills[i].price > 0 && fills[i].qty > 0
    ensures FillTotal(fills) >= 0 && (fills != [] ==> FillTotal(fills[1..]) >= 0)
  {
  }

  /** With the locks in order and the match ids free, settling is refused exactly to a MARKET buyer who cannot pay. */
  lemma {:induction false} SettleFillsSucceed(ms: Markets, db: Db, m: Market, t: Taker, fills: seq<Fill>, cmd: CommandId, idx: nat, rem: int)
    requires TakerOk(ms, m, db.orders, t) && GoodFills(db.orders, t, fills) && 0 <= FillTotal(fills) <= rem
    requires WalletsOk(db.wallets) && FeesSane(m) && OrdersOk(ms, db.orders)
    requires LocksMatch(ms, db.wallets, WithTaker(db.orders, t, rem))
    requires IdsUnused(db.trades, cmd, idx, |fills|)
    ensures SettleFills(db, m, t, fills, cmd, idx).Some? <==>
              (PaysFromBalance(t) ==> CanPay(db.orders, m, t, fills, BuyerBalance(db.wallets, m, t)))
    decreases |fills|
  {
    hide SettleFill, LocksMatch, OrdersOk, TakerOk, GoodFills, BuyerBalance, OwnProceeds, BalanceAfter, WalletsOk, FeesSane, PaysFromBalance;
    if fills != [] {
      var f := fills[0];
      GoodFillsPositive(ms, db.orders, t, fills);
      GoodFillsTail(db.orders, t, fills);
      assert !MatchIdUsed(db.trades, MatchId(cmd, idx));
      SettleFillSucceeds(ms, db, m, t, f, MatchId(cmd, idx), rem);
      if SettleFill(db, m, t, f, MatchId(cmd, idx)).Some? {
        var d := SettleFill(db, m, t, f, MatchId(cmd, idx)).value;
        SettledStays(ms, db, m, t, f, cmd, idx, rem);
        IdsUnusedAfterOne(db, m, t, f, cmd, idx, |fills|);
        TailGood(db, m, t, fills, MatchId(cmd, idx));
        GoodFillsPositive(ms, d.orders, t, fills[1..]);
        SettleFillsSucceed(ms, d, m, t, fills[1..], cmd, idx + 1, rem - f.qty);
        if PaysFromBalance(t) {
          BuyerGoesOn(db, m, t, fills, MatchId(cmd, idx));
        }
      }
    }
  }

  /** What the rest of the walk needs after the first trade. */
  lemma BuyerGoesOn(db: Db, m: Market, t: Taker, fills: seq<Fill>, id: MatchId)
    requires PaysFromBalance(t) && fills != [] && GoodFills(db.orders, t, fills) && SettleFill(db, m, t, fills[0], id).Some?
    ensures var d := SettleFill(db, m, t, fills[0], id).value;
            CanPay(db.orders, m, t, fills, BuyerBalance(db.wallets, m, t))
            == CanPay(d.orders, m, t, fills[1..], BuyerBalance(d.wallets, m, t))
  {
    hide MakerLeg, TakerLeg, BuyerBalance, OwnProceeds, BalanceAfter, MatchIdUsed;
    GoodFillsTail(db.orders, t, fills);
    BuyerBalanceMoves(db, m, t, fills[0], id);
    var d := SettleFill(db, m, t, fills[0], id).value;
    CanPaySameUsers(db.orders, d.orders, m, t, fills[1..], BuyerBalance(d.wallets, m, t));
  }

  lemma TailGood(db: Db, m: Market, t: Taker, fills: seq<Fill>, id: MatchId)
    requires fills != [] && GoodFills(db.orders, t, fills) && SettleFill(db, m, t, fills[0], id).Some?
    ensures GoodFills(SettleFill(db, m, t, fills[0], id).value.orders, t, fills[1..])
  {
  }

  // ------------------------------------------------------------ limit orders

  lemma {:induction false} InvolvedQty(ms: Markets, orders: map<OrderId, Order>, ts: seq<Trade>, id: OrderId)
    requires TradesOk(ms, orders, ts)
    ensures TradedQty(ts, id) >= 0
    ensures TradedQty(ts, id) == 0 ==> forall i :: 0 <= i < |ts| ==> ts[i].takerOrderId != id && ts[i].makerOrderId != id
    decreases |ts|
  {
    if ts != [] {
      assert TradeOk(ms, orders, ts[|ts| - 1]);
      InvolvedQty(ms, orders, ts[..|ts| - 1], id);
    }
  }

  /** An order that has not traded has left no match id behind. */
  lemma UntradedHasNoMatchIds(ms: Markets, db: Db, id: OrderId, cmd: CommandId)
    requires RecordsOk(ms, db) && id in db.orders && db.orders[id].commandId == Some(cmd) && db.orders[id].filledQty == 0
    ensures !MatchIdUsed(db.trades, MatchId(cmd, 0))
  {
    InvolvedQty(ms, db.orders, db.trades, id);
    forall j | 0 <= j < |db.trades| ensures db.trades[j].matchId != MatchId(cmd, 0) {
      assert TradeOk(ms, db.orders, db.trades[j]);
    }
  }

  /**
   Exactly when a limit order's SUBMIT commits: its id does not rest in the
   book, and it either trades nothing or has no trades of this command on
   record yet. No CHECK constraint is ever hit.
   */
  lemma LimitOutcome(ms: Markets, s: State, m: Market, t: Taker, cmd: CommandId)
    requires Inv(ms, s) && TakerOk(ms, m, s.db.orders, t) && t.row.orderType.LIMIT? && t.row.commandId == Some(cmd) && FeesSane(m)
    ensures var book := BookOf(s.books, m.symbol);
            var fills := Match(book.Queue(t.row.side.Opposite()), t.row.side, t.row.price, t.row.leaveQty).fills;
            var outcome := SettleLimit(s, m, t, m.symbol, cmd).outcome;
            && (outcome == Outcome.Refused <==> InBook(book, t.id))
            && (outcome == Committed <==> !InBook(book, t.id) && (fills == [] || !MatchIdUsed(s.db.trades, MatchId(cmd, 0))))
  {
    var book := BookOf(s.books, m.symbol);
    BookOfOk(s.db.orders, s.books, m.symbol);
    if !InBook(book, t.id) {
      var q := book.Queue(t.row.side.Opposite());
      var a := Add(book, t.id, t.row.side, t.row.price.value, t.row.leaveQty);
      MatchFillsGood(ms, m, s.db.orders, t, book, t.row.leaveQty);
      MatchTotal(q, t.row.side, t.row.price, t.row.leaveQty);
      LeaveWithin(q, t.row.side, t.row.price, t.row.leaveQty);
      assert a.Added? && a.fills == Match(q, t.row.side, t.row.price, t.row.leaveQty).fills;
      if a.fills == [] || !MatchIdUsed(s.db.trades, MatchId(cmd, 0)) {
        LimitSettles(ms, s, m, t, cmd, a.fills);
        LimitCommitted(ms, s, m, t, cmd, a);
      } else {
        assert SettleFill(s.db, m, t, a.fills[0], MatchId(cmd, 0)).None?;
      }
    }
  }

  lemma LimitSettles(ms: Markets, s: State, m: Market, t: Taker, cmd: CommandId, fills: seq<Fill>)
    requires Inv(ms, s) && TakerOk(ms, m, s.db.orders, t) && !PaysFromBalance(t) && FeesSane(m)
    requires GoodFills(s.db.orders, t, fills) && 0 <= FillTotal(fills) <= t.row.leaveQty
    requires fills == [] || !MatchIdUsed(s.db.trades, MatchId(cmd, 0))
    ensures SettleFills(s.db, m, t, fills, cmd, 0).Some?
  {
    if fills != [] {
      forall i | 0 <= i < |fills| ensures !MatchIdUsed(s.db.trades, MatchId(cmd, i)) {
        FirstUnusedAllUnused(s.db.trades, cmd, i);
      }
      assert WithTaker(s.db.orders, t, t.row.leaveQty) == s.db.orders;
      SettleFillsSucceed(ms, s.db, m, t, fills, cmd, 0, t.row.leaveQty);
    }
  }

  /** A limit order that is OPEN and not resting always settles. */
  lemma OpenLimitCommits(ms: Markets, s: State, m: Market, t: Taker, cmd: CommandId)
    requires Inv(ms, s) && TakerOk(ms, m, s.db.orders, t) && t.row.orderType.LIMIT? && t.row.commandId == Some(cmd) && FeesSane(m)
    requires t.row.status == OPEN && !InBook(BookOf(s.books, m.symbol), t.id)
    ensures SettleLimit(s, m, t, m.symbol, cmd).outcome == Committed
  {
    UntradedHasNoMatchIds(ms, s.db, t.id, cmd);
    LimitOutcome(ms, s, m, t, cmd);
  }

  // ----------------------------------------------------------- MARKET orders

  /** If everything the book-level sweep trades can be settled, the sweep goes through. */
  lemma {:induction false} SweepSettles(db: Db, b: Book, m: Market, t: Taker, levels: seq<Level>, k: nat, remaining: int, cmd: CommandId, idx: nat)
    requires !Sweep(b, t.id, t.row.side, levels, k, remaining).refused
    requires SettleFills(db, m, t, Sweep(b, t.id, t.row.side, levels, k, remaining).fills, cmd, idx).Some?
    ensures SweepLevels(db, b, m, t, levels, k, remaining, cmd, idx).db.Some?
    decreases |levels|
  {
    hide Add, DropResidue, SettleFill;
    if levels != [] && remaining > 0 {
      var take := Min(levels[0].qty, remaining);
      var a := Add(b, SweepId(t.id, k), t.row.side, levels[0].price, take);
      assert a.Added?;
      SweepUnroll(b, t.id, t.row.side, levels, k, remaining, a);
      var b1 := DropResidue(a.book, SweepId(t.id, k), a.leave);
      var rest := Sweep(b1, t.id, t.row.side, levels[1..], k + 1, remaining - take);
      SettleFillsAppend(db, m, t, a.fills, rest.fills, cmd, idx);
      var d := SettleFills(db, m, t, a.fills, cmd, idx).value;
      SweepLevelsUnroll(db, b, m, t, levels, k, remaining, cmd, idx, a, d);
      SweepSettles(d, b1, m, t, levels[1..], k + 1, remaining - take, cmd, idx + |a.fills|);
    }
  }

  /** Real ids below 10^9 leave the synthetic ids of a sweep free. */
  lemma SmallIdsLeaveSweepFree(orders: map<OrderId, Order>, symbol: Symbol, b: Book, id: OrderId, n: nat)
    requires BookOk(orders, symbol, b) && n <= DEPTH_LIMIT
    requires forall x :: x in orders ==> x < SWEEP_OFFSET
    ensures SweepIdsFree(b, id, 0, n)
  {
    forall i | 0 <= i < n ensures !InBook(b, SweepId(id, i)) {
      RestsMeans(b.bids, SweepId(id, i));
      RestsMeans(b.asks, SweepId(id, i));
      forall e | e in b.bids ensures e.id != SweepId(id, i) {
        assert EntryOk(orders, symbol, Bid, e);
      }
      forall e | e in b.asks ensures e.id != SweepId(id, i) {
        assert EntryOk(orders, symbol, Ask, e);
      }
    }
  }

  lemma FinishMarketSucceeds(ms: Markets, d: Db, m: Market, t: Taker, remaining: int)
    requires TakerOk(ms, m, d.orders, t) && 0 <= remaining && WalletsOk(d.wallets)
    requires LocksMatch(ms, d.wallets, WithTaker(d.orders, t, remaining)) && OrdersOk(ms, d.orders)
    ensures FinishMarket(d, m, t, remaining).Some?
  {
    if remaining > 0 && t.row.side.Ask? {
      var k := WalletKey(t.row.userId, m.baseAsset);
      assert LiveOrdersSane(ms, WithTaker(d.orders, t, remaining));
      ReservationIsLocked(ms, d.wallets, WithTaker(d.orders, t, remaining), t.id, k);
    }
  }

  /** The walk a MARKET order makes, and that it is a good one. */
  lemma MarketWalkGood(ms: Markets, s: State, m: Market, t: Taker)
    requires Inv(ms, s) && TakerOk(ms, m, s.db.orders, t) && !t.row.orderType.LIMIT?
    requires SweepIdsFree(BookOf(s.books, m.symbol), t.id, 0, |MarketLevels(BookOf(s.books, m.symbol), t.row.side)|)
    ensures var walk := Walk(s, m.symbol, t);
            var w := WalkQty(s, m.symbol, t);
            var sw := Sweep(BookOf(s.books, m.symbol), t.id, t.row.side, MarketLevels(BookOf(s.books, m.symbol), t.row.side), 0, t.row.quantity);
            && 0 <= FillTotal(walk.fills) == w <= t.row.quantity && GoodFills(s.db.orders, t, walk.fills)
            && !sw.refused && sw.fills == walk.fills && sw.remaining == t.row.quantity - w
  {
    var book := BookOf(s.books, m.symbol);
    BookOfOk(s.db.orders, s.books, m.symbol);
    var levels := MarketLevels(book, t.row.side);
    var q := book.Queue(t.row.side.Opposite());
    TopLevelsPrefix(q);
    SweepNotRefused(book, t.id, t.row.side, levels, 0, t.row.quantity);
    SweepRefinesWalk(book, t.id, t.row.side, levels, 0, t.row.quantity);
    MatchTotal(q, t.row.side, None, WalkQty(s, m.symbol, t));
    MarketOrderNotInBook(s.db.orders, m.symbol, book, t.id);
    MatchFillsGood(ms, m, s.db.orders, t, book, WalkQty(s, m.symbol, t));
  }

  lemma MarketFillsSettle(ms: Markets, s: State, m: Market, t: Taker, cmd: CommandId, fills: seq<Fill>)
    requires Inv(ms, s) && TakerOk(ms, m, s.db.orders, t) && !t.row.orderType.LIMIT? && t.row.commandId == Some(cmd) && FeesSane(m)
    requires GoodFills(s.db.orders, t, fills) && 0 <= FillTotal(fills) <= t.row.quantity
    ensures SettleFills(s.db, m, t, fills, cmd, 0).Some? <==>
              (PaysFromBalance(t) ==> CanPay(s.db.orders, m, t, fills, BuyerBalance(s.db.wallets, m, t)))
  {
    UntradedHasNoMatchIds(ms, s.db, t.id, cmd);
    MarketIdsUnused(ms, s.db, cmd, |fills|);
    assert WithTaker(s.db.orders, t, t.row.leaveQty) == s.db.orders;
    SettleFillsSucceed(ms, s.db, m, t, fills, cmd, 0, t.row.leaveQty);
  }

  lemma SettledOrdersOk(ms: Markets, db: Db, m: Market, t: Taker, fills: seq<Fill>, cmd: CommandId)
    requires OrdersOk(ms, db.orders) && TakerOk(ms, m, db.orders, t) && GoodFills(db.orders, t, fills)
    requires SettleFills(db, m, t, fills, cmd, 0).Some?
    ensures var d := SettleFills(db, m, t, fills, cmd, 0).value;
            TakerOk(ms, m, d.orders, t) && OrdersOk(ms, d.orders)
  {
    hide SettleFills;
    var d := SettleFills(db, m, t, fills, cmd, 0).value;
    TakerRowUntouched(ms, db, m, t, fills, cmd);
    OrdersAfter(ms, db, m, t, fills, cmd, t.row);
    assert d.orders[t.id := t.row] == d.orders;
  }

  lemma MarketFinishes(ms: Markets, s: State, m: Market, t: Taker, cmd: CommandId, fills: seq<Fill>)
    requires Inv(ms, s) && TakerOk(ms, m, s.db.orders, t) && !t.row.orderType.LIMIT? && t.row.commandId == Some(cmd) && FeesSane(m)
    requires GoodFills(s.db.orders, t, fills) && 0 <= FillTotal(fills) <= t.row.quantity
    requires SettleFills(s.db, m, t, fills, cmd, 0).Some?
    ensures var d := SettleFills(s.db, m, t, fills, cmd, 0).value;
            FinishMarket(d, m, t, t.row.quantity - FillTotal(fills)).Some? && t.id in d.orders
  {
    hide BooksOk, RecordsOk, SettleFills, FinishMarket, LocksMatch, GoodFills, OrdersOk;
    var d := SettleFills(s.db, m, t, fills, cmd, 0).value;
    TradesUnlock(ms, s.db, m, t, fills, cmd);
    SettledOrdersOk(ms, s.db, m, t, fills, cmd);
    FinishMarketSucceeds(ms, d, m, t, t.row.quantity - FillTotal(fills));
  }

  lemma MarketSucceeds(ms: Markets, s: State, m: Market, t: Taker, cmd: CommandId)
    requires Inv(ms, s) && TakerOk(ms, m, s.db.orders, t) && !t.row.orderType.LIMIT? && t.row.commandId == Some(cmd) && FeesSane(m)
    requires SweepIdsFree(BookOf(s.books, m.symbol), t.id, 0, |MarketLevels(BookOf(s.books, m.symbol), t.row.side)|)
    requires PaysFromBalance(t) ==> CanPay(s.db.orders, m, t, Walk(s, m.symbol, t).fills, BuyerBalance(s.db.wallets, m, t))
    ensures SettleMarket(s, m, t, m.symbol, cmd).outcome == Committed
  {
    hide Match, MarketLevels, SettleFills, SweepLevels, DbOk, BooksOk;
    var fills := Walk(s, m.symbol, t).fills;
    var levels := MarketLevels(BookOf(s.books, m.symbol), t.row.side);
    MarketWalkGood(ms, s, m, t);
    MarketFillsSettle(ms, s, m, t, cmd, fills);
    SweepSettles(s.db, BookOf(s.books, m.symbol), m, t, levels, 0, t.row.quantity, cmd, 0);
    SweepCommitted(s.db, BookOf(s.books, m.symbol), m, t, levels, 0, t.row.quantity, cmd, 0);
    MarketFinishes(ms, s, m, t, cmd, fills);
  }

  lemma MarketIdsUnused(ms: Markets, db: Db, cmd: CommandId, n: nat)
    requires Numbered(db.trades) && !MatchIdUsed(db.trades, MatchId(cmd, 0))
    ensures IdsUnused(db.trades, cmd, 0, n)
  {
    forall i | 0 <= i < n ensures !MatchIdUsed(db.trades, MatchId(cmd, i)) {
      FirstUnusedAllUnused(db.trades, cmd, i);
    }
  }

  /**
   Exactly when a MARKET order's SUBMIT commits: a sale always does; a purchase
   does if and only if the buyer can pay trade by trade for the whole walk
   through the fifteen best levels, counting what he sells to himself on the way.
   */
  lemma MarketOutcome(ms: Markets, s: State, m: Market, t: Taker, cmd: CommandId)
    requires Inv(ms, s) && TakerOk(ms, m, s.db.orders, t) && !t.row.orderType.LIMIT? && t.row.commandId == Some(cmd) && FeesSane(m)
    requires SweepIdsFree(BookOf(s.books, m.symbol), t.id, 0, |MarketLevels(BookOf(s.books, m.symbol), t.row.side)|)
    ensures SettleMarket(s, m, t, m.symbol, cmd).outcome == Committed
            <==> (PaysFromBalance(t) ==> CanPay(s.db.orders, m, t, Walk(s, m.symbol, t).fills, BuyerBalance(s.db.wallets, m, t)))
  {
    hide Walk, SettleMarket, CanPay, MarketLevels, DbOk, BooksOk;
    if SettleMarket(s, m, t, m.symbol, cmd).outcome == Committed {
      var d, e := MarketCommitted(ms, s, m, t, cmd);
      MarketFillsSettle(ms, s, m, t, cmd, Walk(s, m.symbol, t).fills);
    }
    if PaysFromBalance(t) ==> CanPay(s.db.orders, m, t, Walk(s, m.symbol, t).fills, BuyerBalance(s.db.wallets, m, t)) {
      MarketSucceeds(ms, s, m, t, cmd);
    }
  }

  // ------------------------------------------------------------------ CANCEL

  /** A CANCEL of a live order always commits: what it gives back is locked. */
  lemma LiveCancelCommits(ms: Markets, s: State, c: Command)
    requires Inv(ms, s) && c.CancelOrder? && c.orderId in s.db.orders && !Terminal(s.db.orders[c.orderId].status)
    ensures SettleCancel(ms, s, c).outcome == Committed
  {
    hide CancelInBook, CancelEvents, RecordsOk, BooksOk;
    var o := s.db.orders[c.orderId];
    assert OrderOk(ms, o);
    var m := ms[o.market];
    assert LiveOrdersSane(ms, s.db.orders);
    ReservationIsLocked(ms, s.db.wallets, s.db.orders, c.orderId, WalletKey(o.userId, if o.side.Bid? then m.quoteAsset else m.baseAsset));
  }

  // ------------------------------------------------------- what can abort

  /** A purchase at market that its buyer cannot pay. */
  ghost predicate UnpaidPurchase(ms: Markets, s: State, c: Command) {
    && c.Submit? && SubmitTarget(ms, s.db, c).Some?
    && var t := SubmitTarget(ms, s.db, c).value;
       && t.row.orderType.MARKET? && PaysFromBalance(t)
       && !CanPay(s.db.orders, ms[c.symbol], t, Walk(s, c.symbol, t).fills, BuyerBalance(s.db.wallets, ms[c.symbol], t))
  }

  /**
   Of all deliveries of commands whose order is over, or has not been matched
   yet, exactly the unpaid purchases at market abort.
   */
  lemma OnlyUnpaidPurchasesAbort(ms: Markets, s: State, c: Command)
    requires Inv(ms, s) && CommandOk(s.db.orders, c) && FeesSane(ms[c.symbol])
    requires forall x :: x in s.db.orders ==> x < SWEEP_OFFSET
    requires c.Submit? && !Terminal(s.db.orders[c.orderId].status) ==>
               s.db.orders[c.orderId].status == OPEN && !InBook(BookOf(s.books, c.symbol), c.orderId)
    ensures Deliver(ms, s, c).outcome == Aborted <==> UnpaidPurchase(ms, s, c)
  {
    hide SettleLimit, SettleMarket, SettleCancel, CanPay, Walk, RecordsOk, LocksMatch, WellFormed;
    var o := s.db.orders[c.orderId];
    assert OrderOk(ms, o);
    if c.CancelOrder? {
      if Terminal(o.status) {
        TerminalCancelSkipped(ms, s, c);
      } else {
        LiveCancelCommits(ms, s, c);
      }
    } else if SubmitTarget(ms, s.db, c).Some? {
      var t := Taker(c.orderId, o);
      if o.orderType.LIMIT? {
        OpenLimitCommits(ms, s, ms[c.symbol], t, c.commandId);
      } else {
        BookOfOk(s.db.orders, s.books, c.symbol);
        LevelCount(BookOf(s.books, c.symbol), o.side);
        SmallIdsLeaveSweepFree(s.db.orders, c.symbol, BookOf(s.books, c.symbol), c.orderId, |MarketLevels(BookOf(s.books, c.symbol), o.side)|);
        MarketOutcome(ms, s, ms[c.symbol], t, c.commandId);
        MarketNeverRefused(s, ms[c.symbol], t, c.symbol, c.commandId);
      }
    }
  }

  lemma LevelCount(b: Book, side: Side)
    ensures |MarketLevels(b, side)| <= DEPTH_LIMIT
  {
  }

  lemma TerminalCancelSkipped(ms: Markets, s: State, c: Command)
    requires c.CancelOrder? && c.orderId in s.db.orders && Terminal(s.db.orders[c.orderId].status)
    ensures SettleCancel(ms, s, c).outcome == Skipped
  {
  }

  lemma MarketNeverRefused(s: State, m: Market, t: Taker, symbol: Symbol, cmd: CommandId)
    ensures SettleMarket(s, m, t, symbol, cmd).outcome in {Committed, Aborted}
  {
  }
}
