/**
 The services as the exchange runs them: objects that change rows and books in
 place. Each method is proved against the state transformer of the same step.
 */
module Services {
  import opened Wrappers
  import opened OrderBook
  import opened MarketSweep
  import opened Ledger
  import opened Settlement
  import LedgerFacts
  import Requests

  /** The database seen by one transaction at a time. */
  class Store {
    const markets: Markets
    var users: map<UserId, bool>   // user id to its `frozen` flag
    var wallets: Wallets
    var orders: map<OrderId, Order>
    var trades: seq<Trade>
    var outbox: seq<Payload>
    var nextOrderId: OrderId

    constructor (markets: Markets, users: map<UserId, bool>, wallets: Wallets)
      ensures this.markets == markets && this.users == users && Rows() == Db(wallets, map[], [], [], 0)
    {
      this.markets, this.users, this.wallets := markets, users, wallets;
      orders, trades, outbox, nextOrderId := map[], [], [], 0;
    }

    function Rows(): Db
      reads this
    {
      Db(wallets, orders, trades, outbox, nextOrderId)
    }

    /** Abort: every table is as it was when the transaction began. */
    method Rollback(begin: Db)
      modifies this
      ensures Rows() == begin && users == old(users)
    {
      wallets, orders, trades, outbox, nextOrderId :=
        begin.wallets, begin.orders, begin.trades, begin.outbox, begin.nextOrderId;
    }

    method WalletUpdate(k: WalletKey, balance: int, locked: int) returns (ok: bool)
      modifies `wallets
      ensures UpdateWallet(old(wallets), k, balance, locked) == if ok then Some(wallets) else None
      ensures ok <==> k in old(wallets) && old(wallets)[k].balance + balance >= 0 && old(wallets)[k].locked + locked >= 0
      ensures ok ==> wallets == old(wallets)[k := Wallet(old(wallets)[k].balance + balance, old(wallets)[k].locked + locked)]
      ensures !ok ==> wallets == old(wallets)
    {
      if k !in wallets {
        return false;
      }
      var w := Wallet(wallets[k].balance + balance, wallets[k].locked + locked);
      ok := CheckOk(w);
      if ok {
        wallets := wallets[k := w];
      }
    }

    method WalletUpsert(k: WalletKey, amount: int) returns (ok: bool)
      modifies `wallets
      ensures CreditWallet(old(wallets), k, amount) == if ok then Some(wallets) else None
      ensures var w := if k in old(wallets) then old(wallets)[k] else Wallet(0, 0);
              && (ok <==> w.balance + amount >= 0 && w.locked >= 0)
              && (ok ==> wallets == old(wallets)[k := Wallet(w.balance + amount, w.locked)])
      ensures !ok ==> wallets == old(wallets)
    {
      var w := Wallet(amount, 0);
      if k in wallets {
        w := Wallet(wallets[k].balance + amount, wallets[k].locked);
      }
      ok := CheckOk(w);
      if ok {
        wallets := wallets[k := w];
      }
    }

    /** One conditional UPDATE: the balance check is part of the WHERE clause. */
    method LockFunds(k: WalletKey, amount: int) returns (ok: bool)
      modifies `wallets
      ensures AtomicLock(old(wallets), k, amount) == if ok then Some(wallets) else None
      ensures ok <==> k in old(wallets) && old(wallets)[k].balance >= amount && old(wallets)[k].locked + amount >= 0
      ensures ok ==> wallets == old(wallets)[k := Wallet(old(wallets)[k].balance - amount, old(wallets)[k].locked + amount)]
      ensures !ok ==> wallets == old(wallets)
    {
      if k !in wallets || wallets[k].balance < amount {
        return false;
      }
      ok := WalletUpdate(k, -amount, amount);
    }

    method TradeCreate(t: Trade) returns (ok: bool)
      modifies `trades
      ensures ok <==> forall i :: 0 <= i < |old(trades)| ==> old(trades)[i].matchId != t.matchId
      ensures trades == old(trades) + if ok then [t] else []
    {
      ok := !MatchIdUsed(trades, t.matchId);
      if ok {
        trades := trades + [t];
      }
    }

    method OrderUpdate(id: OrderId, row: Order) returns (ok: bool)
      modifies `orders
      ensures ok == (id in old(orders))
      ensures orders == if ok then old(orders)[id := row] else old(orders)
    {
      ok := id in orders;
      if ok {
        orders := orders[id := row];
      }
    }

    /** The primary key and the command id are both unique. */
    method OrderCreate(id: OrderId, row: Order, cmd: CommandId) returns (ok: bool)
      modifies `orders, `nextOrderId
      ensures ok <==> id !in old(orders) && forall o :: o in old(orders) ==> old(orders)[o].commandId != Some(cmd)
      ensures orders == if ok then old(orders)[id := row] else old(orders)
      ensures nextOrderId == if ok then Max(old(nextOrderId), id + 1) else old(nextOrderId)
    {
      ok := id !in orders && !CommandIdUsed(orders, cmd);
      if ok {
        orders := orders[id := row];
        nextOrderId := Max(nextOrderId, id + 1);
      }
    }

    /** `OutboxPublisher.publish`: a row in the caller's transaction. */
    method Publish(p: Payload)
      modifies `outbox
      ensures outbox == old(outbox) + [p]
    {
      outbox := outbox + [p];
    }
  }

  /** The same book under every symbol; a book not yet created counts as empty. */
  ghost predicate SameBooks(a: map<Symbol, Book>, b: map<Symbol, Book>) {
    forall s :: SameBookAt(a, b, s)
  }

  ghost predicate SameBookAt(a: map<Symbol, Book>, b: map<Symbol, Book>, symbol: Symbol) {
    BookOf(a, symbol) == BookOf(b, symbol)
  }

  lemma SameBooksReplaced(a: map<Symbol, Book>, b: map<Symbol, Book>, symbol: Symbol, x: Book)
    requires SameBooks(a, b)
    ensures SameBooks(a[symbol := x], b[symbol := x])
  {
    var a1, b1 := a[symbol := x], b[symbol := x];
    forall s ensures SameBookAt(a1, b1, s) {
      assert SameBookAt(a, b, s);
    }
  }

  lemma SameBooksCreated(a: map<Symbol, Book>, b: map<Symbol, Book>, symbol: Symbol)
    requires SameBooks(a, b)
    ensures SameBooks(a[symbol := BookOf(a, symbol)], b)
  {
    var a1 := a[symbol := BookOf(a, symbol)];
    forall s ensures SameBookAt(a1, b, s) {
      assert SameBookAt(a, b, s);
    }
  }

  /** The owner of the in-memory books. */
  class MatchingEngine {
    var books: map<Symbol, Book>
    var ready: bool

    constructor ()
      ensures books == map[] && !ready
    {
      books, ready := map[], false;
    }

    method EnsureBook(symbol: Symbol) returns (b: Book)
      modifies `books
      ensures b == BookOf(old(books), symbol) && books == old(books)[symbol := b]
    {
      if symbol !in books {
        books := books[symbol := EMPTY_BOOK];
      }
      b := books[symbol];
      assert books == old(books)[symbol := b];
    }

    /** `book.add`; `ok` is false when the library throws. */
    method AddToBook(symbol: Symbol, id: nat, side: Side, price: int, qty: int) returns (ok: bool, fills: seq<Fill>, leave: int)
      requires symbol in books
      modifies `books
      ensures match Add(old(books)[symbol], id, side, price, qty) {
                case Refused => !ok && books == old(books)
                case Added(b, fs, l) => ok && books == old(books)[symbol := b] && fills == fs && leave == l
              }
    {
      match Add(books[symbol], id, side, price, qty) {
        case Refused => ok, fills, leave := false, [], qty;
        case Added(b, fs, l) =>
          books := books[symbol := b];
          ok, fills, leave := true, fs, l;
      }
    }

    /** `book.cancel`, with the error of an id that does not rest swallowed. */
    method CancelOnBook(symbol: Symbol, id: nat)
      requires symbol in books
      modifies `books
      ensures books == old(books)[symbol := CancelInBook(old(books)[symbol], id)]
    {
      match Cancel(books[symbol], id) {
        case Some(b) => books := books[symbol := b];
        case None => assert books == books[symbol := books[symbol]];
      }
    }

    /** `onModuleInit`: a book for every enabled market, then the open orders in id order. */
    method Boot(db: Store, enabled: seq<Symbol>)
      requires books == map[]
      modifies this
      ensures ready
      ensures SameBooks(books, Reboot(db.Rows()))
      ensures forall s :: s in enabled ==> s in books
    {
      for i := 0 to |enabled|
        invariant SameBooks(books, map[])
        invariant forall j :: 0 <= j < i ==> enabled[j] in books
      {
        SameBooksCreated(books, map[], enabled[i]);
        var _ := EnsureBook(enabled[i]);
      }
      ReplayOpenOrders(db);
      ready := true;
    }

    method ReplayOpenOrders(db: Store)
      requires SameBooks(books, map[])
      modifies `books
      ensures SameBooks(books, Reboot(db.Rows()))
      ensures old(books).Keys <= books.Keys
    {
      var open := OpenOrders(db.orders, db.nextOrderId);
      for i := 0 to |open|
        invariant SameBooks(books, Replay(db.orders, open[..i]))
        invariant old(books).Keys <= books.Keys
      {
        assert open[..i + 1][..i] == open[..i];
        var id := open[i];
        if id in db.orders && db.orders[id].price.Some? {
          var o := db.orders[id];
          ghost var replayed := Replay(db.orders, open[..i]);
          SameBooksCreated(books, replayed, o.market);
          var b := EnsureBook(o.market);
          assert SameBookAt(books, replayed, o.market);
          assert BookOf(replayed, o.market) == b;
          SameBooksReplaced(books, replayed, o.market, b);
          assert books[o.market := b] == books;
          match Add(b, id, o.side, o.price.value, o.leaveQty) {
            case Refused =>
            case Added(b1, _, _) => SameBooksReplaced(books, replayed, o.market, b1);
          }
          var _, _, _ := AddToBook(o.market, id, o.side, o.price.value, o.leaveQty);
        }
      }
      assert open[..|open|] == open;
    }
  }

  /** The counter shared by all trades of one command. */
  class MatchIdContext {
    const commandId: CommandId
    var matchIdx: nat

    constructor (commandId: CommandId)
      ensures this.commandId == commandId && matchIdx == 0
    {
      this.commandId, matchIdx := commandId, 0;
    }
  }

  /** Matching and settlement. */
  class SettlerService {
    const store: Store
    const matching: MatchingEngine

    constructor (store: Store, matching: MatchingEngine)
      ensures this.store == store && this.matching == matching
    {
      this.store, this.matching := store, matching;
    }

    function Now(): State
      reads store, matching
    {
      State(store.Rows(), matching.books)
    }

    method MakerSettlement(market: Market, maker: Order, price: int, qty: int) returns (ok: bool)
      modifies store`wallets
      ensures MakerLeg(old(store.wallets), market, maker, price, qty) == if ok then Some(store.wallets) else None
    {
      if maker.side.Ask? {
        ok := store.WalletUpdate(WalletKey(maker.userId, market.baseAsset), 0, -BaseAmount(qty));
        if ok {
          ok := store.WalletUpsert(WalletKey(maker.userId, market.quoteAsset), NetQuote(price, qty, market.makerFeeBp));
        }
      } else if maker.price.None? {
        ok := false;
      } else {
        var reserved := QuoteAmount(maker.price.value, qty);
        var refund := reserved - QuoteAmount(price, qty);
        ok := store.WalletUpdate(WalletKey(maker.userId, market.quoteAsset), refund, -reserved);
        if ok {
          ok := store.WalletUpsert(WalletKey(maker.userId, market.baseAsset), NetBase(qty, market.makerFeeBp));
        }
      }
    }

    method TakerSettlement(market: Market, taker: Order, price: int, qty: int) returns (ok: bool)
      modifies store`wallets
      ensures TakerLeg(old(store.wallets), market, taker, price, qty) == if ok then Some(store.wallets) else None
    {
      if taker.side.Bid? {
        var quote := WalletKey(taker.userId, market.quoteAsset);
        if taker.orderType.LIMIT? && taker.price.Some? {
          var reserved := QuoteAmount(taker.price.value, qty);
          ok := store.WalletUpdate(quote, reserved - QuoteAmount(price, qty), -reserved);
        } else {
          ok := store.WalletUpdate(quote, -QuoteAmount(price, qty), 0);
        }
        if ok {
          ok := store.WalletUpsert(WalletKey(taker.userId, market.baseAsset), NetBase(qty, market.takerFeeBp));
        }
      } else {
        ok := store.WalletUpdate(WalletKey(taker.userId, market.baseAsset), 0, -BaseAmount(qty));
        if ok {
          ok := store.WalletUpsert(WalletKey(taker.userId, market.quoteAsset), NetQuote(price, qty, market.takerFeeBp));
        }
      }
    }

    /** The body of the settlement loop. */
    method SettleTrade(market: Market, taker: Taker, f: Fill, matchId: MatchId) returns (ok: bool)
      modifies store
      ensures SettleFill(old(store.Rows()), market, taker, f, matchId) == if ok then Some(store.Rows()) else None
      ensures store.users == old(store.users)
    {
      if f.makerId !in store.orders {
        return false;
      }
      var maker := store.orders[f.makerId];
      ok := store.TradeCreate(TradeRow(market, maker, taker, f, matchId));
      if ok {
        ok := MakerSettlement(market, maker, f.price, f.qty);
      }
      if ok {
        ok := TakerSettlement(market, taker.row, f.price, f.qty);
      }
      if ok {
        ok := store.OrderUpdate(f.makerId, MakerAfter(maker, f.qty));
      }
    }

    /** `settleTrades`: match ids count on across calls through the shared context. */
    method SettleTrades(market: Market, taker: Taker, fills: seq<Fill>, ctx: MatchIdContext) returns (ok: bool)
      modifies store, ctx
      ensures SettleFills(old(store.Rows()), market, taker, fills, ctx.commandId, old(ctx.matchIdx))
              == if ok then Some(store.Rows()) else None
      ensures ok ==> ctx.matchIdx == old(ctx.matchIdx) + |fills|
      ensures store.users == old(store.users)
    {
      hide SettleFill;
      ghost var goal := SettleFills(store.Rows(), market, taker, fills, ctx.commandId, ctx.matchIdx);
      for i := 0 to |fills|
        invariant goal == SettleFills(store.Rows(), market, taker, fills[i..], ctx.commandId, ctx.matchIdx)
        invariant ctx.matchIdx == old(ctx.matchIdx) + i
        invariant store.users == old(store.users)
      {
        assert fills[i..][0] == fills[i] && fills[i..][1..] == fills[i + 1..];
        var matchId := MatchId(ctx.commandId, ctx.matchIdx);
        ctx.matchIdx := ctx.matchIdx + 1;
        ok := SettleTrade(market, taker, fills[i], matchId);
        if !ok {
          return;
        }
      }
      ok := true;
    }

    /** One level of the sweep: a synthetic limit order, its trades, its residue cancelled. */
    method SweepLevel(market: Market, taker: Taker, symbol: Symbol, sweepId: nat, price: int, take: int, ctx: MatchIdContext)
      returns (ok: bool)
      requires symbol in matching.books
      modifies store, matching`books, ctx
      ensures match Add(old(matching.books)[symbol], sweepId, taker.row.side, price, take) {
                case Refused => !ok && matching.books == old(matching.books)
                case Added(b1, fills, leave) =>
                  match SettleFills(old(store.Rows()), market, taker, fills, ctx.commandId, old(ctx.matchIdx)) {
                    case None => !ok && matching.books == old(matching.books)[symbol := b1]
                    case Some(d) =>
                      && ok && store.Rows() == d && ctx.matchIdx == old(ctx.matchIdx) + |fills|
                      && matching.books == old(matching.books)[symbol := DropResidue(b1, sweepId, leave)]
                  }
              }
      ensures store.users == old(store.users)
    {
      hide Add, SettleFills;
      var fills, leave;
      ok, fills, leave := matching.AddToBook(symbol, sweepId, taker.row.side, price, take);
      if !ok {
        return;
      }
      ok := SettleTrades(market, taker, fills, ctx);
      if ok && leave > 0 {
        matching.CancelOnBook(symbol, sweepId);
      }
    }

    /** `executeMarketOrder`, the loop over the levels of the snapshot. */
    method SweepBook(market: Market, taker: Taker, symbol: Symbol, ctx: MatchIdContext) returns (ok: bool, remaining: int)
      requires symbol in matching.books && ctx.matchIdx == 0
      modifies store, matching`books, ctx
      ensures symbol in matching.books && matching.books == old(matching.books)[symbol := matching.books[symbol]]
      ensures SweepLevels(old(store.Rows()), old(matching.books)[symbol], market, taker,
                          MarketLevels(old(matching.books)[symbol], taker.row.side), 0, taker.row.quantity, ctx.commandId, 0)
              == SweepState(if ok then Some(store.Rows()) else None, matching.books[symbol], remaining)
      ensures store.users == old(store.users)
    {
      hide Add, SettleFills, MarketLevels, DropResidue;
      var levels := MarketLevels(matching.books[symbol], taker.row.side);
      remaining := taker.row.quantity;
      var sweepIdCounter := 0;
      ghost var goal := SweepLevels(store.Rows(), matching.books[symbol], market, taker, levels, 0, remaining, ctx.commandId, 0);
      assert matching.books == matching.books[symbol := matching.books[symbol]];
      assert levels[0..] == levels;
      while sweepIdCounter < |levels| && remaining > 0
        invariant sweepIdCounter <= |levels|
        invariant symbol in matching.books && matching.books == old(matching.books)[symbol := matching.books[symbol]]
        invariant goal == SweepLevels(store.Rows(), matching.books[symbol], market, taker, levels[sweepIdCounter..],
                                      sweepIdCounter, remaining, ctx.commandId, ctx.matchIdx)
        invariant store.users == old(store.users)
      {
        var lvl := levels[sweepIdCounter];
        assert levels[sweepIdCounter..][0] == lvl && levels[sweepIdCounter..][1..] == levels[sweepIdCounter + 1..];
        var take := Min(lvl.qty, remaining);
        var sweepId := SweepId(taker.id, sweepIdCounter);
        sweepIdCounter := sweepIdCounter + 1;
        ok := SweepLevel(market, taker, symbol, sweepId, lvl.price, take, ctx);
        if !ok {
          return;
        }
        remaining := remaining - take;
      }
      ok := true;
    }

    /** `executeMarketOrder`, the tail: the row, the refund of an ASK, the final status. */
    method CloseMarketOrder(market: Market, taker: Taker, remaining: int) returns (ok: bool)
      modifies store
      ensures FinishMarket(old(store.Rows()), market, taker, remaining) == if ok then Some(store.Rows()) else None
      ensures store.users == old(store.users)
    {
      if taker.id !in store.orders {
        return false;
      }
      var row := AfterMatch(store.orders[taker.id], remaining, taker.row.quantity);
      ok := store.OrderUpdate(taker.id, row);
      if remaining > 0 {
        if taker.row.side.Ask? {
          ok := store.WalletUpdate(WalletKey(taker.row.userId, market.baseAsset), BaseAmount(remaining), -BaseAmount(remaining));
          if !ok {
            return;
          }
        }
        var status := if taker.row.quantity == remaining then CANCELLED else FILLED;
        ok := store.OrderUpdate(taker.id, row.(status := status));
        assert store.orders == old(store.orders)[taker.id := row.(status := status)];
      }
    }

    /** `publishSubmitEvents`. */
    method PublishSubmitEvents(id: OrderId, row: Order, trades: seq<Trade>, symbol: Symbol, book: Book)
      modifies store`outbox
      ensures store.outbox == old(store.outbox) + SubmitEvents(id, row, trades, symbol, book)
    {
      ghost var goal := old(store.outbox) + [OrderAdded(id, row.leaveQty, row.filledQty, row.status)] + AllTradeEvents(trades);
      store.Publish(OrderAdded(id, row.leaveQty, row.filledQty, row.status));
      for i := 0 to |trades|
        invariant store.outbox + AllTradeEvents(trades[i..]) == goal
      {
        var t := trades[i];
        assert AllTradeEvents(trades[i..]) == TradeEvents(t) + AllTradeEvents(trades[i + 1..]) by {
          assert trades[i..][0] == t && trades[i..][1..] == trades[i + 1..];
        }
        ghost var sent := store.outbox;
        store.Publish(TradeDone(t.matchId, t.price, t.quantity));
        store.Publish(TakerNotice(t.matchId, t.takerUserId, t.takerOrderId));
        store.Publish(MakerNotice(t.matchId, t.makerUserId, t.makerOrderId));
        assert store.outbox == sent + TradeEvents(t);
        assert store.outbox + AllTradeEvents(trades[i + 1..]) == sent + (TradeEvents(t) + AllTradeEvents(trades[i + 1..]));
      }
      assert store.outbox == goal;
      store.Publish(Snapshot(symbol, book));
    }

    /** Match, settle and write the order; the caller commits or rolls back. */
    method ExecuteSubmit(market: Market, taker: Taker, symbol: Symbol, ctx: MatchIdContext, ghost before: State)
      returns (ok: bool, refused: bool)
      requires ctx.matchIdx == 0 && store.Rows() == before.db
      requires symbol in matching.books && matching.books == before.books[symbol := BookOf(before.books, symbol)]
      modifies store, matching`books, ctx
      ensures store.users == old(store.users) && symbol in matching.books
      ensures matching.books == before.books[symbol := matching.books[symbol]] && (refused ==> !ok)
      ensures (if taker.row.orderType.LIMIT? then SettleLimit(before, market, taker, symbol, ctx.commandId)
               else SettleMarket(before, market, taker, symbol, ctx.commandId))
              == if refused then Settled(State(before.db, matching.books), Outcome.Refused)
                 else Commit(before, if ok then Some(store.Rows()) else None, taker, symbol, matching.books[symbol])
    {
      hide Add, SettleFills, SweepLevels, FinishMarket, SubmitEvents, NewTrades, MarketLevels;
      refused := false;
      if taker.row.orderType.LIMIT? {
        if taker.row.price.None? {
          return false, false;
        }
        var fills, leave;
        ok, fills, leave := matching.AddToBook(symbol, taker.id, taker.row.side, taker.row.price.value, taker.row.leaveQty);
        if !ok {
          refused := true;
          return;
        }
        ok := SettleTrades(market, taker, fills, ctx);
        if ok {
          ok := taker.id in store.orders;
          if ok {
            ok := store.OrderUpdate(taker.id, AfterMatch(store.orders[taker.id], leave, taker.row.quantity));
          }
        }
      } else {
        var remaining;
        ok, remaining := SweepBook(market, taker, symbol, ctx);
        if ok {
          ok := CloseMarketOrder(market, taker, remaining);
        }
      }
    }

    /** The end of the transaction of a SUBMIT: read the order back, publish, commit; or roll back. */
    method EndSubmit(begin: State, done: bool, taker: Taker, symbol: Symbol) returns (committed: bool)
      requires symbol in matching.books && matching.books == begin.books[symbol := matching.books[symbol]]
      modifies store
      ensures Commit(begin, if done then Some(old(store.Rows())) else None, taker, symbol, matching.books[symbol])
              == Settled(Now(), if committed then Committed else Aborted)
      ensures !done ==> !committed && store.Rows() == begin.db
      ensures store.users == old(store.users)
    {
      hide SubmitEvents, NewTrades;
      committed := done && taker.id in store.orders;
      if committed {
        PublishSubmitEvents(taker.id, store.orders[taker.id], NewTrades(begin.db, store.Rows()), symbol, matching.books[symbol]);
      } else {
        store.Rollback(begin.db);
      }
    }

    /** `settleSubmit`: the transaction rolls back, the book does not. */
    method SettleSubmit(cmd: Command) returns (outcome: Outcome)
      modifies store, matching
      ensures Settled(Now(), outcome) == Settlement.SettleSubmit(store.markets, old(Now()), cmd)
      ensures store.users == old(store.users)
    {
      if cmd.symbol !in store.markets || cmd.orderId !in store.orders {
        return Skipped;
      }
      var order := store.orders[cmd.orderId];
      if order.commandId.Some? && order.commandId.value != cmd.commandId {
        return Skipped;
      }
      if order.status == FILLED || order.status == CANCELLED {
        return Skipped;
      }
      hide SettleLimit, SettleMarket, Commit;
      var begin := Now();
      var _ := matching.EnsureBook(cmd.symbol);
      var ctx := new MatchIdContext(cmd.commandId);
      var taker := Taker(cmd.orderId, order);
      var ok, refused := ExecuteSubmit(store.markets[cmd.symbol], taker, cmd.symbol, ctx, begin);
      var committed := EndSubmit(begin, ok, taker, cmd.symbol);
      outcome := if committed then Committed else if refused then Outcome.Refused else Aborted;
    }

    /** `publishCancelEvents`. */
    method PublishCancelEvents(id: OrderId, row: Order, book: Book)
      modifies store`outbox
      ensures store.outbox == old(store.outbox) + CancelEvents(id, row, book)
    {
      store.Publish(OrderCancelled(id, row.leaveQty, row.filledQty));
      store.Publish(CancelNotice(row.userId, id));
      store.Publish(Snapshot(row.market, book));
    }

    /** What is still reserved goes back to the balance. */
    method ReleaseReservation(market: Market, order: Order) returns (ok: bool)
      modifies store`wallets
      ensures Release(old(store.wallets), market, order) == if ok then Some(store.wallets) else None
    {
      ok := true;
      if order.leaveQty > 0 {
        if order.side.Bid? && order.price.Some? {
          var releaseQuote := QuoteAmount(order.price.value, order.leaveQty);
          ok := store.WalletUpdate(WalletKey(order.userId, market.quoteAsset), releaseQuote, -releaseQuote);
        } else if order.side.Ask? {
          ok := store.WalletUpdate(WalletKey(order.userId, market.baseAsset), BaseAmount(order.leaveQty), -BaseAmount(order.leaveQty));
        }
      }
    }

    /** `settleCancel`. */
    method SettleCancel(cmd: Command) returns (outcome: Outcome)
      modifies store, matching
      ensures Settled(Now(), outcome) == Settlement.SettleCancel(store.markets, old(Now()), cmd)
      ensures store.users == old(store.users)
    {
      hide CancelEvents, Release, CancelInBook;
      if cmd.orderId !in store.orders {
        return Skipped;
      }
      var order := store.orders[cmd.orderId];
      if order.status == FILLED || order.status == CANCELLED || order.market !in store.markets {
        return Skipped;
      }
      var market := store.markets[order.market];
      var begin := store.Rows();
      var _ := matching.EnsureBook(order.market);
      matching.CancelOnBook(order.market, cmd.orderId);
      var book := matching.books[order.market];
      assert matching.books == old(matching.books)[order.market := book];
      var ok := ReleaseReservation(market, order);
      if !ok {
        store.Rollback(begin);
        return Aborted;
      }
      var persisted := order.(status := CANCELLED);
      ok := store.OrderUpdate(cmd.orderId, persisted);
      PublishCancelEvents(cmd.orderId, persisted, book);
      outcome := Committed;
    }
  }

  datatype HandleResult = Ignored | Ok | Noop | Error

  class CommandConsumer {
    const settler: SettlerService

    constructor (settler: SettlerService)
      ensures this.settler == settler
    {
      this.settler := settler;
    }

    /** `handleMessage`: an error is logged and swallowed, the message counts as handled. None is a message without a readable command. */
    method HandleMessage(message: Option<Command>) returns (result: HandleResult)
      modifies settler.store, settler.matching
      ensures message.None? ==> result == Ignored && settler.Now() == old(settler.Now())
      ensures message.Some? ==>
                var d := Deliver(settler.store.markets, old(settler.Now()), message.value);
                && settler.Now() == d.state
                && (result == Error <==> d.outcome in {Outcome.Refused, Aborted})
                && (d.outcome == Committed ==> result == Ok)
                && var orders := old(settler.store.orders);
                   var over := message.value.orderId in orders && Terminal(orders[message.value.orderId].status);
                   (result == Noop <==> d.outcome == Skipped && (message.value.Submit? || !over))
    {
      if message.None? {
        return Ignored;
      }
      var cmd := message.value;
      result := Ok;
      var outcome;
      if cmd.Submit? {
        outcome := settler.SettleSubmit(cmd);
        if outcome == Skipped {
          result := Noop;
        }
      } else {
        var known := cmd.orderId in settler.store.orders;
        var terminal := known && Terminal(settler.store.orders[cmd.orderId].status);
        outcome := settler.SettleCancel(cmd);
        if outcome == Skipped && !terminal {
          result := Noop;
        }
      }
      if outcome == Outcome.Refused || outcome == Aborted {
        result := Error;
      }
    }
  }

  /** The order API. */
  class OrderService {
    const store: Store

    constructor (store: Store)
      ensures this.store == store
    {
      this.store := store;
    }

    method ValidateTickStep(r: OrderRequest, market: Market) returns (error: Option<ApiError>)
      requires r.market in store.markets && store.markets[r.market] == market && market.enabled
      ensures error.None? && r.orderType.LIMIT? ==> r.price.Some?
      ensures error.None? <==> Requests.OnSteps(market, r) && Requests.LargeEnough(market, r)
      ensures Validate(Some(false), store.markets, r) ==
              if error.Some? then error
              else if r.quantity <= 0 then Some(QuantityNotPositive)
              else if r.orderType.LIMIT? && r.price.value <= 0 then Some(PriceNotPositive)
              else None
    {
      if !OnGrid(r.quantity, market.stepSize) {
        return Some(StepViolation);
      }
      if r.orderType.LIMIT? {
        if r.price.None? {
          return Some(PriceRequired);
        }
        if !OnGrid(r.price.value, market.tickSize) {
          return Some(TickViolation);
        }
        if r.price.value * r.quantity < market.minNotional * NOTIONAL_SCALE {
          return Some(BelowMinNotional);
        }
      }
      error := None;
    }

    /** `lockReservation`: nothing up front for a MARKET BID. */
    method LockReservation(user: UserId, market: Market, r: OrderRequest) returns (ok: bool)
      requires r.orderType.LIMIT? ==> r.price.Some?
      modifies store`wallets
      ensures Settlement.LockReservation(old(store.wallets), user, market, r) == if ok then Some(store.wallets) else None
    {
      if r.orderType.LIMIT? {
        var reserveBase := r.side.Ask?;
        var assetToLock := if reserveBase then market.baseAsset else market.quoteAsset;
        var reserveAmount := if reserveBase then BaseAmount(r.quantity) else QuoteAmount(r.price.value, r.quantity);
        ok := store.LockFunds(WalletKey(user, assetToLock), reserveAmount);
      } else if r.side.Ask? {
        ok := store.LockFunds(WalletKey(user, market.baseAsset), BaseAmount(r.quantity));
      } else {
        ok := true;
      }
    }

    /** `_submitInner`: either everything is written or nothing. */
    method Submit(user: UserId, r: OrderRequest, id: OrderId, commandId: CommandId) returns (error: Option<ApiError>)
      modifies store
      ensures SubmitOrder(store.markets, old(store.Rows()), user,
                          if user in old(store.users) then Some(old(store.users)[user]) else None, r, id, commandId)
              == if error.None? then Accepted(store.Rows()) else Rejected(error.value)
      ensures error.Some? ==> store.Rows() == old(store.Rows())
      ensures LedgerFacts.WalletsOk(old(store.wallets)) ==>
                (error.None? <==> Requests.Acceptable(store.markets, old(store.Rows()), user,
                                                      if user in old(store.users) then Some(old(store.users)[user]) else None, r, id, commandId))
    {
      if LedgerFacts.WalletsOk(store.wallets) {
        Requests.AcceptedExactly(store.markets, store.Rows(), user, if user in store.users then Some(store.users[user]) else None, r, id, commandId);
      }
      if user !in store.users {
        return Some(UserNotFound);
      }
      if store.users[user] {
        return Some(AccountFrozen);
      }
      if r.market !in store.markets || !store.markets[r.market].enabled {
        return Some(MarketNotFound);
      }
      var market := store.markets[r.market];
      error := ValidateTickStep(r, market);
      if error.Some? {
        return;
      }
      if r.quantity <= 0 {
        return Some(QuantityNotPositive);
      }
      if r.orderType.LIMIT? && r.price.value <= 0 {
        return Some(PriceNotPositive);
      }
      var begin := store.Rows();
      var ok := LockReservation(user, market, r);
      if !ok {
        store.Rollback(begin);
        return Some(InsufficientBalance);
      }
      ok := store.OrderCreate(id, NewOrder(user, r, commandId), commandId);
      if !ok {
        store.Rollback(begin);
        return Some(UniqueViolation);
      }
      store.Publish(CommandRow(Command.Submit(commandId, id, r.market)));
    }

    /** `cancel`: only asks the matcher to cancel. */
    method Cancel(user: UserId, id: OrderId, commandId: CommandId) returns (error: Option<ApiError>)
      modifies store`outbox
      ensures RequestCancel(old(store.Rows()), user, id, commandId)
              == if error.None? then Accepted(store.Rows()) else Rejected(error.value)
      ensures error.Some? ==> store.Rows() == old(store.Rows())
      ensures error.None? <==> id in old(store.orders) && old(store.orders)[id].userId == user && Requests.Live(old(store.orders)[id])
    {
      if id !in store.orders || store.orders[id].userId != user {
        return Some(OrderNotFound);
      }
      if store.orders[id].status == FILLED || store.orders[id].status == CANCELLED {
        return Some(OrderNotActive);
      }
      store.Publish(CommandRow(CancelOrder(commandId, id, store.orders[id].market)));
      error := None;
    }
  }
}
