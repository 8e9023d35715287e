/**
 The database rows the exchange works on and the single writes made inside a
 transaction. A write that the database refuses (missing row, CHECK
 constraint, unique index) yields None, which aborts the whole transaction.

 Prices and quantities count units of 10^-12, the scale of the Decimal(28, 12)
 columns; wallet amounts count units of 10^-28, so that price x quantity x
 basis points is exact.
 */
module Ledger {
  import opened Wrappers
  import opened OrderBook

  type UserId = string
  type Asset = string
  type Symbol = string
  type CommandId = string
  type OrderId = nat

  /** Basis points in one. */
  const BP: int := 10_000

  /** Wallet units in one unit of quantity. */
  const BASE_SCALE: int := 10_000_000_000_000_000

  /** Wallet units in one unit of quantity times one basis point. */
  const FEE_SCALE: int := 1_000_000_000_000

  function BaseAmount(qty: int): int {
    qty * BASE_SCALE
  }

  function QuoteAmount(price: int, qty: int): int {
    price * qty * BP
  }

  /** A base credit after a fee of `bp` basis points. */
  function NetBase(qty: int, bp: int): int {
    qty * (BP - bp) * FEE_SCALE
  }

  /** A quote credit after a fee of `bp` basis points. */
  function NetQuote(price: int, qty: int, bp: int): int {
    price * qty * (BP - bp)
  }

  // -------------------------------------------------------------------- rows

  datatype WalletKey = WalletKey(user: UserId, asset: Asset)

  datatype Wallet = Wallet(balance: int, locked: int)

  type Wallets = map<WalletKey, Wallet>

  datatype Market = Market(symbol: Symbol, baseAsset: Asset, quoteAsset: Asset,
                           tickSize: int, stepSize: int, minNotional: int,
                           makerFeeBp: int, takerFeeBp: int, enabled: bool)

  type Markets = map<Symbol, Market>

  datatype OrderType = LIMIT | MARKET

  datatype Status = OPEN | PARTIAL | FILLED | CANCELLED

  predicate Terminal(s: Status) {
    s == FILLED || s == CANCELLED
  }

  datatype Order = Order(userId: UserId, market: Symbol, side: Side, orderType: OrderType,
                         price: Option<int>, quantity: int, leaveQty: int, filledQty: int,
                         status: Status, commandId: Option<CommandId>)

  /** `<commandId>#<idx>`; Numerals proves the text form unambiguous. */
  datatype MatchId = MatchId(commandId: CommandId, idx: nat)

  /** Fees are in quantity units times basis points. */
  datatype Trade = Trade(market: Symbol, price: int, quantity: int,
                         makerOrderId: OrderId, takerOrderId: OrderId,
                         makerSide: Side, takerSide: Side,
                         makerUserId: UserId, takerUserId: UserId,
                         makerFee: int, takerFee: int, matchId: MatchId)

  datatype Command =
    | Submit(commandId: CommandId, orderId: OrderId, symbol: Symbol)
    | CancelOrder(commandId: CommandId, orderId: OrderId, symbol: Symbol)

  datatype Payload =
    | CommandRow(command: Command)
    | OrderAdded(orderId: OrderId, leaveQty: int, filledQty: int, status: Status)
    | TradeDone(matchId: MatchId, price: int, quantity: int)
    | TakerNotice(matchId: MatchId, userId: UserId, orderId: OrderId)
    | MakerNotice(matchId: MatchId, userId: UserId, orderId: OrderId)
    | OrderCancelled(orderId: OrderId, leaveQty: int, filledQty: int)
    | CancelNotice(userId: UserId, orderId: OrderId)
    | BookSnapshot(market: Symbol, asks: seq<Level>, bids: seq<Level>)

  /** The tables; `nextOrderId` is the auto-increment sequence of the Order table. */
  datatype Db = Db(wallets: Wallets, orders: map<OrderId, Order>, trades: seq<Trade>,
                   outbox: seq<Payload>, nextOrderId: OrderId)

  // ----------------------------------------------------------- wallet writes

  predicate CheckOk(w: Wallet) {
    w.balance >= 0 && w.locked >= 0
  }

  /** `tx.wallet.update`: the row must exist and satisfy the CHECK constraints afterwards. */
  function UpdateWallet(ws: Wallets, k: WalletKey, balance: int, locked: int): Option<Wallets> {
    if k !in ws then None
    else
      var w := Wallet(ws[k].balance + balance, ws[k].locked + locked);
      if CheckOk(w) then Some(ws[k := w]) else None
  }

  /** `creditWallet`: an upsert. */
  function CreditWallet(ws: Wallets, k: WalletKey, amount: int): Option<Wallets> {
    var w := if k in ws then Wallet(ws[k].balance + amount, ws[k].locked) else Wallet(amount, 0);
    if CheckOk(w) then Some(ws[k := w]) else None
  }

  /** `atomicLock`: one conditional UPDATE; no row updated means refusal. */
  function AtomicLock(ws: Wallets, k: WalletKey, amount: int): Option<Wallets> {
    if k in ws && ws[k].balance >= amount then
      UpdateWallet(ws, k, -amount, amount)
    else None
  }

  // ----------------------------------------------------- settling one trade

  /** The taker's row as it was read before the transaction. */
  datatype Taker = Taker(id: OrderId, row: Order)

  function MakerLeg(ws: Wallets, m: Market, maker: Order, price: int, qty: int): Option<Wallets> {
    if maker.side.Ask? then
      var w1 :- UpdateWallet(ws, WalletKey(maker.userId, m.baseAsset), 0, -BaseAmount(qty));
      CreditWallet(w1, WalletKey(maker.userId, m.quoteAsset), NetQuote(price, qty, m.makerFeeBp))
    else if maker.price.None? then None
    else
      var reserved := QuoteAmount(maker.price.value, qty);
      var refund := reserved - QuoteAmount(price, qty);
      var w1 :- UpdateWallet(ws, WalletKey(maker.userId, m.quoteAsset), refund, -reserved);
      CreditWallet(w1, WalletKey(maker.userId, m.baseAsset), NetBase(qty, m.makerFeeBp))
  }

  /** A limit buyer pays from its reservation and is refunded the rest of it; a MARKET buyer pays from its balance. */
  function BuyerPays(ws: Wallets, m: Market, taker: Order, price: int, qty: int): Option<Wallets> {
    var quote := WalletKey(taker.userId, m.quoteAsset);
    if taker.orderType.LIMIT? && taker.price.Some? then
      var reserved := QuoteAmount(taker.price.value, qty);
      UpdateWallet(ws, quote, reserved - QuoteAmount(price, qty), -reserved)
    else
      UpdateWallet(ws, quote, -QuoteAmount(price, qty), 0)
  }

  function TakerLeg(ws: Wallets, m: Market, taker: Order, price: int, qty: int): Option<Wallets> {
    if taker.side.Bid? then
      var w1 :- BuyerPays(ws, m, taker, price, qty);
      CreditWallet(w1, WalletKey(taker.userId, m.baseAsset), NetBase(qty, m.takerFeeBp))
    else
      var w1 :- UpdateWallet(ws, WalletKey(taker.userId, m.baseAsset), 0, -BaseAmount(qty));
      CreditWallet(w1, WalletKey(taker.userId, m.quoteAsset), NetQuote(price, qty, m.takerFeeBp))
  }

  predicate MatchIdUsed(trades: seq<Trade>, id: MatchId) {
    exists i :: 0 <= i < |trades| && trades[i].matchId == id
  }

  function TradeRow(m: Market, maker: Order, t: Taker, f: Fill, id: MatchId): Trade {
    Trade(m.symbol, f.price, f.qty, f.makerId, t.id, maker.side, t.row.side, maker.userId, t.row.userId,
          f.qty * m.makerFeeBp, f.qty * m.takerFeeBp, id)
  }

  /** The maker's row after trading qty. */
  function MakerAfter(maker: Order, qty: int): Order {
    maker.(filledQty := maker.filledQty + qty, leaveQty := maker.leaveQty - qty,
           status := if maker.leaveQty - qty <= 0 then FILLED else PARTIAL)
  }

  /** One iteration of the settlement loop. */
  function SettleFill(db: Db, m: Market, t: Taker, f: Fill, id: MatchId): Option<Db> {
    if f.makerId !in db.orders || MatchIdUsed(db.trades, id) then None
    else
      var maker := db.orders[f.makerId];
      var w1 :- MakerLeg(db.wallets, m, maker, f.price, f.qty);
      var w2 :- TakerLeg(w1, m, t.row, f.price, f.qty);
      Some(db.(wallets := w2,
               trades := db.trades + [TradeRow(m, maker, t, f, id)],
               orders := db.orders[f.makerId := MakerAfter(maker, f.qty)]))
  }

  /** The settlement loop: match ids count on from idx. */
  function SettleFills(db: Db, m: Market, t: Taker, fills: seq<Fill>, cmd: CommandId, idx: nat): Option<Db>
    decreases |fills|
  {
    if fills == [] then Some(db)
    else
      var d :- SettleFill(db, m, t, fills[0], MatchId(cmd, idx));
      SettleFills(d, m, t, fills[1..], cmd, idx + 1)
  }

  /** `updateOrderAfterMatch`. */
  function AfterMatch(o: Order, leave: int, originalQty: int): Order {
    var filled := originalQty - leave;
    o.(filledQty := filled, leaveQty := leave,
       status := if leave <= 0 then FILLED else if filled > 0 then PARTIAL else OPEN)
  }

  // ------------------------------------------------------------ outbox rows

  function Snapshot(symbol: Symbol, b: Book): Payload {
    BookSnapshot(symbol, TopLevels(b.asks), TopLevels(b.bids))
  }

  /** The three events of one trade. */
  function TradeEvents(t: Trade): seq<Payload> {
    [TradeDone(t.matchId, t.price, t.quantity),
     TakerNotice(t.matchId, t.takerUserId, t.takerOrderId),
     MakerNotice(t.matchId, t.makerUserId, t.makerOrderId)]
  }

  function AllTradeEvents(ts: seq<Trade>): seq<Payload> {
    if ts == [] then [] else TradeEvents(ts[0]) + AllTradeEvents(ts[1..])
  }

  function SubmitEvents(id: OrderId, o: Order, trades: seq<Trade>, symbol: Symbol, b: Book): seq<Payload> {
    [OrderAdded(id, o.leaveQty, o.filledQty, o.status)] + AllTradeEvents(trades) + [Snapshot(symbol, b)]
  }

  function CancelEvents(id: OrderId, o: Order, b: Book): seq<Payload> {
    [OrderCancelled(id, o.leaveQty, o.filledQty), CancelNotice(o.userId, id), Snapshot(o.market, b)]
  }
}
