/**
 The commands of the exchange as state transformers: what the API does with a
 new order or a cancellation, and what the matcher does with a SUBMIT or
 CANCEL command. The database part of each command is one transaction; the
 in-memory books are outside it and keep what was done to them when the
 transaction aborts.
 */
module Settlement {
  import opened Wrappers
  import opened OrderBook
  import opened MarketSweep
  import opened Ledger

  datatype State = State(db: Db, books: map<Symbol, Book>)

  /** `getEngine`: an empty book is created on first use. */
  function BookOf(books: map<Symbol, Book>, symbol: Symbol): Book {
    if symbol in books then books[symbol] else EMPTY_BOOK
  }

  /** How the matcher finished with a command. */
  datatype Outcome =
    | Skipped    // nothing to do: row missing, command mismatch or order already terminal
    | Refused    // the book refused the id; the transaction aborted before any write
    | Aborted    // a write was refused; the database is unchanged, the book is not
    | Committed

  datatype Settled = Settled(state: State, outcome: Outcome)

  // ------------------------------------------------------------------ SUBMIT

  /** Progress of the MARKET sweep: `db` is None once a write has been refused. */
  datatype SweepState = SweepState(db: Option<Db>, book: Book, remaining: int)

  /** `executeMarketOrder`, the loop over the snapshot's levels. */
  function SweepLevels(db: Db, book: Book, m: Market, t: Taker, levels: seq<Level>, k: nat,
                       remaining: int, cmd: CommandId, idx: nat): SweepState
    decreases |levels|
  {
    if levels == [] || remaining <= 0 then SweepState(Some(db), book, remaining)
    else
      var take := Min(levels[0].qty, remaining);
      match Add(book, SweepId(t.id, k), t.row.side, levels[0].price, take) {
        case Refused => SweepState(None, book, remaining)
        case Added(b1, fills, leave) =>
          match SettleFills(db, m, t, fills, cmd, idx) {
            case None => SweepState(None, b1, remaining)
            case Some(d) =>
              SweepLevels(d, DropResidue(b1, SweepId(t.id, k), leave), m, t, levels[1..], k + 1,
                          remaining - take, cmd, idx + |fills|)
          }
      }
  }

  /** The tail of `executeMarketOrder`: the row, the refund of an ASK, the final status. */
  function FinishMarket(db: Db, m: Market, t: Taker, remaining: int): Option<Db> {
    if t.id !in db.orders then None
    else
      var o := AfterMatch(db.orders[t.id], remaining, t.row.quantity);
      if remaining <= 0 then Some(db.(orders := db.orders[t.id := o]))
      else
        var ws :- if t.row.side.Ask? then
                    UpdateWallet(db.wallets, WalletKey(t.row.userId, m.baseAsset), BaseAmount(remaining), -BaseAmount(remaining))
                  else Some(db.wallets);
        var status := if t.row.quantity == remaining then CANCELLED else FILLED;
        Some(db.(wallets := ws, orders := db.orders[t.id := o.(status := status)]))
  }

  function FinishLimit(db: Db, t: Taker, leave: int): Option<Db> {
    if t.id !in db.orders then None
    else Some(db.(orders := db.orders[t.id := AfterMatch(db.orders[t.id], leave, t.row.quantity)]))
  }

  function NewTrades(before: Db, after: Db): seq<Trade> {
    if |before.trades| <= |after.trades| then after.trades[|before.trades|..] else []
  }

  /**
   The end of the transaction: read the order back, append the events of the
   new trades to the outbox, commit. The book stays as it is in any case.
   */
  function Commit(s: State, done: Option<Db>, t: Taker, symbol: Symbol, b: Book): Settled {
    var books := s.books[symbol := b];
    if done.None? || t.id !in done.value.orders then Settled(State(s.db, books), Aborted)
    else
      var d := done.value;
      var events := SubmitEvents(t.id, d.orders[t.id], NewTrades(s.db, d), symbol, b);
      Settled(State(d.(outbox := d.outbox + events), books), Committed)
  }

  function SettleLimit(s: State, m: Market, t: Taker, symbol: Symbol, cmd: CommandId): Settled {
    var book := BookOf(s.books, symbol);
    if t.row.price.None? then Settled(s.(books := s.books[symbol := book]), Aborted)
    else
      match Add(book, t.id, t.row.side, t.row.price.value, t.row.leaveQty) {
        case Refused => Settled(s.(books := s.books[symbol := book]), Outcome.Refused)
        case Added(b1, fills, leave) =>
          var done := match SettleFills(s.db, m, t, fills, cmd, 0) {
            case None => None
            case Some(d) => FinishLimit(d, t, leave)
          };
          Commit(s, done, t, symbol, b1)
      }
  }

  function MarketLevels(book: Book, side: Side): seq<Level> {
    TopLevels(book.Queue(side.Opposite()))
  }

  function SettleMarket(s: State, m: Market, t: Taker, symbol: Symbol, cmd: CommandId): Settled {
    var book := BookOf(s.books, symbol);
    var sw := SweepLevels(s.db, book, m, t, MarketLevels(book, t.row.side), 0, t.row.quantity, cmd, 0);
    var done := match sw.db {
      case None => None
      case Some(d) => FinishMarket(d, m, t, sw.remaining)
    };
    Commit(s, done, t, symbol, sw.book)
  }

  /** The checks before the transaction: None means the command is skipped. */
  function SubmitTarget(markets: Markets, db: Db, c: Command): Option<Taker> {
    if c.symbol !in markets || c.orderId !in db.orders then None
    else
      var o := db.orders[c.orderId];
      if o.commandId.Some? && o.commandId.value != c.commandId then None
      else if Terminal(o.status) then None
      else Some(Taker(c.orderId, o))
  }

  /** `settleSubmit`. */
  function SettleSubmit(markets: Markets, s: State, c: Command): Settled {
    match SubmitTarget(markets, s.db, c) {
      case None => Settled(s, Skipped)
      case Some(t) =>
        if t.row.orderType.LIMIT?
        then SettleLimit(s, markets[c.symbol], t, c.symbol, c.commandId)
        else SettleMarket(s, markets[c.symbol], t, c.symbol, c.commandId)
    }
  }

  // ------------------------------------------------------------------ CANCEL

  /** The book without the order; an unknown id is not an error here. */
  function CancelInBook(b: Book, id: OrderId): Book {
    match Cancel(b, id) {
      case Some(c) => c
      case None => b
    }
  }

  /** The wallet write of `settleCancel`: what is still reserved goes back. */
  function Release(ws: Wallets, m: Market, o: Order): Option<Wallets> {
    if o.leaveQty <= 0 then Some(ws)
    else if o.side.Bid? && o.price.Some? then
      var amount := QuoteAmount(o.price.value, o.leaveQty);
      UpdateWallet(ws, WalletKey(o.userId, m.quoteAsset), amount, -amount)
    else if o.side.Ask? then
      UpdateWallet(ws, WalletKey(o.userId, m.baseAsset), BaseAmount(o.leaveQty), -BaseAmount(o.leaveQty))
    else Some(ws)
  }

  /** `settleCancel`. */
  function SettleCancel(markets: Markets, s: State, c: Command): Settled {
    if c.orderId !in s.db.orders then Settled(s, Skipped)
    else
      var o := s.db.orders[c.orderId];
      if Terminal(o.status) || o.market !in markets then Settled(s, Skipped)
      else
        var b := CancelInBook(BookOf(s.books, o.market), c.orderId);
        var books := s.books[o.market := b];
        match Release(s.db.wallets, markets[o.market], o) {
          case None => Settled(State(s.db, books), Aborted)
          case Some(ws) =>
            var o1 := o.(status := CANCELLED);
            Settled(State(s.db.(wallets := ws, orders := s.db.orders[c.orderId := o1],
                                outbox := s.db.outbox + CancelEvents(c.orderId, o1, b)), books), Committed)
        }
  }

  /** The dispatch in the consumer; errors are swallowed there. */
  function Deliver(markets: Markets, s: State, c: Command): Settled {
    match c {
      case Submit(_, _, _) => SettleSubmit(markets, s, c)
      case CancelOrder(_, _, _) => SettleCancel(markets, s, c)
    }
  }

  // --------------------------------------------------------------------- API

  datatype OrderRequest = OrderRequest(market: Symbol, side: Side, orderType: OrderType, price: Option<int>, quantity: int)

  datatype ApiError =
    | UserNotFound | AccountFrozen | MarketNotFound
    | StepViolation | PriceRequired | TickViolation | BelowMinNotional
    | QuantityNotPositive | PriceNotPositive
    | InsufficientBalance | UniqueViolation | OrderNotFound | OrderNotActive

  /** Notional is price x quantity in units of 10^-24. */
  const NOTIONAL_SCALE: int := 1_000_000_000_000

  predicate OnGrid(x: int, unit: int) {
    unit != 0 && x % unit == 0
  }

  /** `validateTickStep`, then the sign checks, in the source's order. */
  function Validate(frozen: Option<bool>, markets: Markets, r: OrderRequest): Option<ApiError> {
    if frozen.None? then Some(UserNotFound)
    else if frozen.value then Some(AccountFrozen)
    else if r.market !in markets || !markets[r.market].enabled then Some(MarketNotFound)
    else
      var m := markets[r.market];
      if !OnGrid(r.quantity, m.stepSize) then Some(StepViolation)
      else if r.orderType.LIMIT? && r.price.None? then Some(PriceRequired)
      else if r.orderType.LIMIT? && !OnGrid(r.price.value, m.tickSize) then Some(TickViolation)
      else if r.orderType.LIMIT? && r.price.value * r.quantity < m.minNotional * NOTIONAL_SCALE then Some(BelowMinNotional)
      else if r.quantity <= 0 then Some(QuantityNotPositive)
      else if r.orderType.LIMIT? && r.price.value <= 0 then Some(PriceNotPositive)
      else None
  }

  /** `lockReservation`. */
  function LockReservation(ws: Wallets, user: UserId, m: Market, r: OrderRequest): Option<Wallets> {
    if r.orderType.LIMIT? then
      if r.side.Ask? then AtomicLock(ws, WalletKey(user, m.baseAsset), BaseAmount(r.quantity))
      else if r.price.None? then None
      else AtomicLock(ws, WalletKey(user, m.quoteAsset), QuoteAmount(r.price.value, r.quantity))
    else if r.side.Ask? then AtomicLock(ws, WalletKey(user, m.baseAsset), BaseAmount(r.quantity))
    else Some(ws)
  }

  predicate CommandIdUsed(orders: map<OrderId, Order>, id: CommandId) {
    exists o :: o in orders && orders[o].commandId == Some(id)
  }

  function NewOrder(user: UserId, r: OrderRequest, cmd: CommandId): Order {
    Order(user, r.market, r.side, r.orderType, if r.orderType.LIMIT? then r.price else None,
          r.quantity, r.quantity, 0, OPEN, Some(cmd))
  }

  datatype ApiResult = Accepted(db: Db) | Rejected(error: ApiError)

  function Max(a: nat, b: nat): nat {
    if a >= b then a else b
  }

  /**
   `_submitInner`: lock, insert the order, append the SUBMIT command, all in
   one transaction. The id comes from a sequence; transactions may commit out
   of id order and leave gaps, so any unused id may turn up.
   */
  function SubmitOrder(markets: Markets, db: Db, user: UserId, frozen: Option<bool>, r: OrderRequest,
                       id: OrderId, cmd: CommandId): ApiResult {
    match Validate(frozen, markets, r) {
      case Some(e) => Rejected(e)
      case None =>
        match LockReservation(db.wallets, user, markets[r.market], r) {
          case None => Rejected(InsufficientBalance)
          case Some(ws) =>
            if id in db.orders || CommandIdUsed(db.orders, cmd) then Rejected(UniqueViolation)
            else
              Accepted(db.(wallets := ws,
                           orders := db.orders[id := NewOrder(user, r, cmd)],
                           outbox := db.outbox + [CommandRow(Submit(cmd, id, r.market))],
                           nextOrderId := Max(db.nextOrderId, id + 1)))
        }
    }
  }

  /** `cancel`: only appends the CANCEL command. */
  function RequestCancel(db: Db, user: UserId, id: OrderId, cmd: CommandId): ApiResult {
    if id !in db.orders || db.orders[id].userId != user then Rejected(OrderNotFound)
    else if Terminal(db.orders[id].status) then Rejected(OrderNotActive)
    else Accepted(db.(outbox := db.outbox + [CommandRow(CancelOrder(cmd, id, db.orders[id].market))]))
  }

  // -------------------------------------------------------------------- boot

  predicate Replayable(o: Order) {
    !Terminal(o.status) && o.orderType.LIMIT?
  }

  /** Ids below n of OPEN and PARTIAL limit orders, ascending. */
  function OpenOrders(orders: map<OrderId, Order>, n: nat): seq<OrderId> {
    if n == 0 then []
    else OpenOrders(orders, n - 1) + if n - 1 in orders && Replayable(orders[n - 1]) then [n - 1] else []
  }

  /** One iteration of the replay loop: trades it might produce are dropped, refusals are logged. */
  function ReplayOne(orders: map<OrderId, Order>, books: map<Symbol, Book>, id: OrderId): map<Symbol, Book> {
    if id !in orders || orders[id].price.None? then books
    else
      var o := orders[id];
      var b := BookOf(books, o.market);
      match Add(b, id, o.side, o.price.value, o.leaveQty) {
        case Refused => books[o.market := b]
        case Added(b1, _, _) => books[o.market := b1]
      }
  }

  function Replay(orders: map<OrderId, Order>, ids: seq<OrderId>): map<Symbol, Book> {
    if ids == [] then map[]
    else ReplayOne(orders, Replay(orders, ids[..|ids| - 1]), ids[|ids| - 1])
  }

  /** `replayOpenOrders` into fresh books. */
  function Reboot(db: Db): map<Symbol, Book> {
    Replay(db.orders, OpenOrders(db.orders, db.nextOrderId))
  }
}
