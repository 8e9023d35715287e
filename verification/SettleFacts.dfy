/**
 What one run of the settlement loop does, over all the trades of a command:
 the rows it writes, what it leaves locked, what it takes in fees, and when it
 cannot be refused by the database.
 */
module SettleFacts {
  import opened Wrappers
  import opened Sums
  import opened OrderBook
  import opened Ledger
  import opened LedgerFacts

  ghost predicate MarketsOk(ms: Markets) {
    forall s :: s in ms ==> ms[s].symbol == s
  }

  /** The life cycle of an order row. */
  ghost predicate OrderOk(ms: Markets, o: Order) {
    && o.market in ms
    && o.quantity > 0 && o.filledQty >= 0 && o.leaveQty >= 0 && o.filledQty + o.leaveQty == o.quantity
    && (o.orderType.LIMIT? <==> o.price.Some?)
    && (o.price.Some? ==> o.price.value > 0)
    && (!Terminal(o.status) ==> o.leaveQty > 0)
    && (o.status == OPEN ==> o.filledQty == 0)
    && (o.status == PARTIAL ==> o.filledQty > 0 && o.orderType.LIMIT?)
    && (o.status == FILLED && o.orderType.LIMIT? ==> o.leaveQty == 0)
  }

  ghost predicate OrdersOk(ms: Markets, orders: map<OrderId, Order>) {
    forall id :: id in orders ==> OrderOk(ms, orders[id])
  }

  ghost predicate TakerOk(ms: Markets, m: Market, orders: map<OrderId, Order>, t: Taker) {
    && t.id in orders && orders[t.id] == t.row
    && !Terminal(t.row.status) && OrderOk(ms, t.row)
    && t.row.market == m.symbol
    && m.symbol in ms && ms[m.symbol] == m
  }

  /** A trade against a live limit order of the other side, at that order's price, within both limits. */
  ghost predicate GoodFill(orders: map<OrderId, Order>, t: Taker, f: Fill) {
    && f.qty > 0
    && f.makerId in orders && f.makerId != t.id
    && var maker := orders[f.makerId];
       && !Terminal(maker.status) && maker.orderType.LIMIT?
       && maker.market == t.row.market && maker.side == t.row.side.Opposite()
       && maker.price == Some(f.price)
       && f.qty <= maker.leaveQty
       && Crosses(t.row.side, t.row.price, f.price)
  }

  ghost predicate DistinctMakers(fills: seq<Fill>) {
    forall i, j :: 0 <= i < j < |fills| ==> fills[i].makerId != fills[j].makerId
  }

  ghost predicate GoodFills(orders: map<OrderId, Order>, t: Taker, fills: seq<Fill>) {
    DistinctMakers(fills) && forall i :: 0 <= i < |fills| ==> GoodFill(orders, t, fills[i])
  }

  lemma {:induction false} FilledAbsent(fills: seq<Fill>, id: nat)
    requires forall i :: 0 <= i < |fills| ==> fills[i].makerId != id
    ensures Filled(fills, id) == 0
    decreases |fills|
  {
    if fills != [] {
      FilledAbsent(fills[1..], id);
    }
  }

  /** Settling the first trade leaves the others as good as they were. */
  lemma GoodFillsTail(orders: map<OrderId, Order>, t: Taker, fills: seq<Fill>)
    requires GoodFills(orders, t, fills) && fills != []
    ensures GoodFills(orders[fills[0].makerId := MakerAfter(orders[fills[0].makerId], fills[0].qty)], t, fills[1..])
    ensures Filled(fills[1..], fills[0].makerId) == 0
    ensures GoodFill(orders, t, fills[0])
  {
    FilledAbsent(fills[1..], fills[0].makerId);
    forall i | 0 <= i < |fills[1..]|
      ensures GoodFill(orders[fills[0].makerId := MakerAfter(orders[fills[0].makerId], fills[0].qty)], t, fills[1..][i])
    {
      assert fills[1..][i] == fills[i + 1];
      assert GoodFill(orders, t, fills[i + 1]);
    }
  }

  // ------------------------------------------------------------ rows written

  function Traded(o: Order, qty: int): Order {
    if qty == 0 then o else MakerAfter(o, qty)
  }

  function TradeRows(m: Market, orders: map<OrderId, Order>, t: Taker, fills: seq<Fill>, cmd: CommandId, idx: nat): seq<Trade>
    requires forall i :: 0 <= i < |fills| ==> fills[i].makerId in orders
  {
    seq(|fills|, i requires 0 <= i < |fills| => TradeRow(m, orders[fills[i].makerId], t, fills[i], MatchId(cmd, idx + i)))
  }

  /** The loop writes one trade row per trade, numbered without gaps, and each maker's row once. */
  lemma {:induction false} SettleFillsRows(db: Db, m: Market, t: Taker, fills: seq<Fill>, cmd: CommandId, idx: nat)
    requires GoodFills(db.orders, t, fills)
    requires SettleFills(db, m, t, fills, cmd, idx).Some?
    ensures var d := SettleFills(db, m, t, fills, cmd, idx).value;
            && d.orders.Keys == db.orders.Keys
            && (forall id :: id in db.orders ==> d.orders[id] == Traded(db.orders[id], Filled(fills, id)))
            && d.trades == db.trades + TradeRows(m, db.orders, t, fills, cmd, idx)
            && d.outbox == db.outbox && d.nextOrderId == db.nextOrderId
    decreases |fills|
  {
    hide MakerLeg, TakerLeg, TradeRow, MatchIdUsed;
    if fills == [] {
      assert TradeRows(m, db.orders, t, fills, cmd, idx) == [];
      assert db.trades + [] == db.trades;
    } else {
      GoodFillsTail(db.orders, t, fills);
      var f := fills[0];
      var maker := db.orders[f.makerId];
      var d1 := SettleFill(db, m, t, f, MatchId(cmd, idx)).value;
      SettleFillsRows(d1, m, t, fills[1..], cmd, idx + 1);
      var row := TradeRow(m, maker, t, f, MatchId(cmd, idx));
      TradeRowsSplit(m, db.orders, t, fills, cmd, idx);
      assert db.trades + [row] + TradeRows(m, d1.orders, t, fills[1..], cmd, idx + 1)
          == db.trades + ([row] + TradeRows(m, d1.orders, t, fills[1..], cmd, idx + 1));
    }
  }

  lemma TradeRowsSplit(m: Market, orders: map<OrderId, Order>, t: Taker, fills: seq<Fill>, cmd: CommandId, idx: nat)
    requires GoodFills(orders, t, fills) && fills != []
    ensures var after := orders[fills[0].makerId := MakerAfter(orders[fills[0].makerId], fills[0].qty)];
            TradeRows(m, orders, t, fills, cmd, idx)
            == [TradeRow(m, orders[fills[0].makerId], t, fills[0], MatchId(cmd, idx))] + TradeRows(m, after, t, fills[1..], cmd, idx + 1)
  {
  }

  lemma SettleHead(ms: Markets, db: Db, m: Market, t: Taker, fills: seq<Fill>, cmd: CommandId, idx: nat)
    requires TakerOk(ms, m, db.orders, t) && GoodFills(db.orders, t, fills) && fills != []
    requires SettleFills(db, m, t, fills, cmd, idx).Some?
    ensures SettleFill(db, m, t, fills[0], MatchId(cmd, idx)).Some?
    ensures var d1 := SettleFill(db, m, t, fills[0], MatchId(cmd, idx)).value;
            && TakerOk(ms, m, d1.orders, t) && GoodFills(d1.orders, t, fills[1..])
            && SettleFills(d1, m, t, fills[1..], cmd, idx + 1) == SettleFills(db, m, t, fills, cmd, idx)
    ensures GoodFill(db.orders, t, fills[0])
  {
    GoodFillsTail(db.orders, t, fills);
  }

  // ------------------------------------------------------------------- locks

  /** The orders as they will be once the taker's row is written with `rem` left. */
  function WithTaker(orders: map<OrderId, Order>, t: Taker, rem: int): map<OrderId, Order> {
    orders[t.id := t.row.(leaveQty := rem)]
  }

  /** What is locked in a wallet beyond the reservations of the live orders. */
  ghost function LockGap(ms: Markets, ws: Wallets, orders: map<OrderId, Order>, k: WalletKey): int {
    LockedAt(ws, k) - Reserved(ms, orders, k)
  }

  /** The wallets give up what the maker and the taker reserve for the traded quantity. */
  lemma SettleFillUnlocks(db: Db, m: Market, t: Taker, f: Fill, id: MatchId, k: WalletKey)
    requires GoodFill(db.orders, t, f) && SettleFill(db, m, t, f, id).Some?
    requires !Terminal(t.row.status) && (t.row.orderType.LIMIT? <==> t.row.price.Some?)
    ensures LockedAt(SettleFill(db, m, t, f, id).value.wallets, k)
            == LockedAt(db.wallets, k) - ReservedFor(m, db.orders[f.makerId].(leaveQty := f.qty), k)
               - ReservedFor(m, t.row.(leaveQty := f.qty), k)
  {
    var maker := db.orders[f.makerId];
    var w1 := MakerLeg(db.wallets, m, maker, f.price, f.qty).value;
    MakerLegLocks(db.wallets, m, maker, f.price, f.qty, k);
    TakerLegLocks(w1, m, t.row, f.price, f.qty, k);
  }

  /** The orders reserve that much less afterwards. */
  lemma TradeMovesReserved(ms: Markets, orders: map<OrderId, Order>, m: Market, t: Taker, f: Fill, rem: int, k: WalletKey)
    requires TakerOk(ms, m, orders, t) && GoodFill(orders, t, f)
    ensures var after := orders[f.makerId := MakerAfter(orders[f.makerId], f.qty)];
            Reserved(ms, WithTaker(after, t, rem - f.qty), k)
            == Reserved(ms, WithTaker(orders, t, rem), k) - ReservedFor(m, orders[f.makerId].(leaveQty := f.qty), k)
               - ReservedFor(m, t.row.(leaveQty := f.qty), k)
  {
    var maker := orders[f.makerId];
    var after := MakerAfter(maker, f.qty);
    ReservedSplits(m, maker, f.qty, k);
    assert ReservedFor(m, after, k) == ReservedFor(m, maker.(leaveQty := maker.leaveQty - f.qty), k);
    var view := WithTaker(orders, t, rem);
    var view1 := view[f.makerId := after];
    var open, less := t.row.(leaveQty := rem), t.row.(leaveQty := rem - f.qty);
    OrderWriteMovesReserved(ms, view, f.makerId, after, k);
    OrderWriteMovesReserved(ms, view1, t.id, less, k);
    assert WithTaker(orders[f.makerId := after], t, rem - f.qty) == view1[t.id := less];
    ReservedSplits(m, open, f.qty, k);
    assert open.(leaveQty := rem - f.qty) == less && open.(leaveQty := f.qty) == t.row.(leaveQty := f.qty);
  }

  lemma SettleFillLocks(ms: Markets, db: Db, m: Market, t: Taker, f: Fill, id: MatchId, rem: int, k: WalletKey)
    requires TakerOk(ms, m, db.orders, t) && GoodFill(db.orders, t, f)
    requires SettleFill(db, m, t, f, id).Some?
    ensures var d := SettleFill(db, m, t, f, id).value;
            LockGap(ms, d.wallets, WithTaker(d.orders, t, rem - f.qty), k) == LockGap(ms, db.wallets, WithTaker(db.orders, t, rem), k)
  {
    SettleFillUnlocks(db, m, t, f, id, k);
    TradeMovesReserved(ms, db.orders, m, t, f, rem, k);
  }

  /** Every trade unlocks exactly what the two orders no longer reserve. */
  lemma {:induction false} SettleFillsLocks(ms: Markets, db: Db, m: Market, t: Taker, fills: seq<Fill>, cmd: CommandId, idx: nat, rem: int, k: WalletKey)
    requires TakerOk(ms, m, db.orders, t) && GoodFills(db.orders, t, fills)
    requires SettleFills(db, m, t, fills, cmd, idx).Some?
    ensures var d := SettleFills(db, m, t, fills, cmd, idx).value;
            LockGap(ms, d.wallets, WithTaker(d.orders, t, rem - FillTotal(fills)), k) == LockGap(ms, db.wallets, WithTaker(db.orders, t, rem), k)
    decreases |fills|
  {
    hide SettleFill, LockGap, TakerOk, GoodFills;
    if fills != [] {
      SettleHead(ms, db, m, t, fills, cmd, idx);
      var d1 := SettleFill(db, m, t, fills[0], MatchId(cmd, idx)).value;
      SettleFillLocks(ms, db, m, t, fills[0], MatchId(cmd, idx), rem, k);
      SettleFillsLocks(ms, d1, m, t, fills[1..], cmd, idx + 1, rem - fills[0].qty, k);
      assert rem - fills[0].qty - FillTotal(fills[1..]) == rem - FillTotal(fills);
    }
  }

  lemma {:induction false} SettleFillsConserve(ms: Markets, db: Db, m: Market, t: Taker, fills: seq<Fill>, cmd: CommandId, idx: nat, a: Asset)
    requires TakerOk(ms, m, db.orders, t) && GoodFills(db.orders, t, fills)
    requires SettleFills(db, m, t, fills, cmd, idx).Some?
    ensures var d := SettleFills(db, m, t, fills, cmd, idx).value;
            Supply(d.wallets, a) + FeesTaken(ms, d.trades, a) == Supply(db.wallets, a) + FeesTaken(ms, db.trades, a)
    decreases |fills|
  {
    if fills != [] {
      SettleHead(ms, db, m, t, fills, cmd, idx);
      var d1 := SettleFill(db, m, t, fills[0], MatchId(cmd, idx)).value;
      SettleFillConserves(ms, db, m, t, fills[0], MatchId(cmd, idx), a);
      SettleFillsConserve(ms, d1, m, t, fills[1..], cmd, idx + 1, a);
    }
  }

  lemma {:induction false} SettleFillsWalletsOk(db: Db, m: Market, t: Taker, fills: seq<Fill>, cmd: CommandId, idx: nat)
    requires WalletsOk(db.wallets) && SettleFills(db, m, t, fills, cmd, idx).Some?
    ensures WalletsOk(SettleFills(db, m, t, fills, cmd, idx).value.wallets)
    decreases |fills|
  {
    if fills != [] {
      var f := fills[0];
      var d1 := SettleFill(db, m, t, f, MatchId(cmd, idx)).value;
      LegsKeepWalletsOk(db.wallets, m, db.orders[f.makerId], f.price, f.qty);
      LegsKeepWalletsOk(MakerLeg(db.wallets, m, db.orders[f.makerId], f.price, f.qty).value, m, t.row, f.price, f.qty);
      SettleFillsWalletsOk(d1, m, t, fills[1..], cmd, idx + 1);
    }
  }

  /** Settling two batches one after the other is settling their concatenation. */
  lemma {:induction false} SettleFillsAppend(db: Db, m: Market, t: Taker, a: seq<Fill>, b: seq<Fill>, cmd: CommandId, idx: nat)
    ensures SettleFills(db, m, t, a + b, cmd, idx)
            == match SettleFills(db, m, t, a, cmd, idx) {
                 case None => None
                 case Some(d) => SettleFills(d, m, t, b, cmd, idx + |a|)
               }
    decreases |a|
  {
    hide SettleFill;
    if a == [] {
      assert a + b == b;
    } else {
      assert (a + b)[1..] == a[1..] + b;
      var d := SettleFill(db, m, t, a[0], MatchId(cmd, idx));
      if d.Some? {
        SettleFillsAppend(d.value, m, t, a[1..], b, cmd, idx + 1);
      }
    }
  }

  // --------------------------------------------------------------- no refusal

  ghost predicate LocksMatch(ms: Markets, ws: Wallets, orders: map<OrderId, Order>) {
    forall k :: LockedAt(ws, k) == Reserved(ms, orders, k)
  }

  ghost predicate LiveOrdersSane(ms: Markets, orders: map<OrderId, Order>) {
    forall id :: id in orders && !Terminal(orders[id].status) ==>
      orders[id].market in ms && orders[id].leaveQty >= 0 && (orders[id].price.Some? ==> orders[id].price.value > 0)
  }

  lemma ReservationsNonNegative(ms: Markets, orders: map<OrderId, Order>, k: WalletKey)
    requires LiveOrdersSane(ms, orders)
    ensures NonNegative(Reservations(ms, orders, k))
  {
  }

  /** What an order reserves is locked. */
  lemma ReservationIsLocked(ms: Markets, ws: Wallets, orders: map<OrderId, Order>, id: OrderId, k: WalletKey)
    requires LocksMatch(ms, ws, orders) && LiveOrdersSane(ms, orders)
    requires id in orders && orders[id].market in ms
    ensures LockedAt(ws, k) >= ReservedFor(ms[orders[id].market], orders[id], k)
  {
    ReservationsNonNegative(ms, orders, k);
    MapSumAtLeast(Reservations(ms, orders, k), id);
  }

  /** What two orders reserve is locked for both. */
  lemma TwoReservationsAreLocked(ms: Markets, ws: Wallets, orders: map<OrderId, Order>, i: OrderId, j: OrderId, k: WalletKey)
    requires LocksMatch(ms, ws, orders) && LiveOrdersSane(ms, orders)
    requires i in orders && j in orders && i != j && orders[i].market in ms && orders[j].market in ms
    ensures LockedAt(ws, k) >= ReservedFor(ms[orders[i].market], orders[i], k) + ReservedFor(ms[orders[j].market], orders[j], k)
  {
    ReservationsNonNegative(ms, orders, k);
    MapSumAtLeastTwo(Reservations(ms, orders, k), i, j);
  }

  ghost predicate FeesSane(m: Market) {
    0 <= m.makerFeeBp <= BP && 0 <= m.takerFeeBp <= BP
  }

  lemma MakerLegSucceeds(ws: Wallets, m: Market, maker: Order, price: int, qty: int)
    requires WalletsOk(ws) && FeesSane(m) && qty > 0 && price > 0
    requires maker.price == Some(price)
    requires var k := WalletKey(maker.userId, if maker.side.Ask? then m.baseAsset else m.quoteAsset);
             LockedAt(ws, k) >= if maker.side.Ask? then BaseAmount(qty) else QuoteAmount(price, qty)
    ensures MakerLeg(ws, m, maker, price, qty).Some?
  {
  }

  lemma TakerLegSucceeds(ws: Wallets, m: Market, taker: Order, price: int, qty: int)
    requires WalletsOk(ws) && FeesSane(m) && qty > 0 && price > 0
    requires taker.orderType.LIMIT? <==> taker.price.Some?
    requires Crosses(taker.side, taker.price, price)
    requires taker.side.Ask? ==> LockedAt(ws, WalletKey(taker.userId, m.baseAsset)) >= BaseAmount(qty)
    requires taker.side.Bid? && taker.price.Some? ==>
               LockedAt(ws, WalletKey(taker.userId, m.quoteAsset)) >= QuoteAmount(taker.price.value, qty)
    requires taker.side.Bid? && taker.price.None? ==>
               BalanceAt(ws, WalletKey(taker.userId, m.quoteAsset)) >= QuoteAmount(price, qty)
    ensures TakerLeg(ws, m, taker, price, qty).Some?
  {
    NetAmountsNonNegative(price, qty, m.takerFeeBp);
    QuotePositive(price, qty);
    if taker.side.Bid? && taker.price.Some? {
      QuoteMonotone(price, taker.price.value, qty);
    }
  }

  /** A MARKET buyer, who has nothing locked. */
  predicate PaysFromBalance(t: Taker) {
    t.row.side.Bid? && t.row.price.None?
  }

  function BuyerBalance(ws: Wallets, m: Market, t: Taker): int {
    BalanceAt(ws, WalletKey(t.row.userId, m.quoteAsset))
  }

  /** What a trade with his own order brings a buyer before he pays. */
  function OwnProceeds(m: Market, maker: Order, t: Taker, f: Fill): int {
    if maker.userId == t.row.userId then NetQuote(f.price, f.qty, m.makerFeeBp) else 0
  }

  /** What one trade leaves of a MARKET buyer's quote balance. */
  function BalanceAfter(m: Market, maker: Order, t: Taker, f: Fill, balance: int): int {
    balance + OwnProceeds(m, maker, t, f) - QuoteAmount(f.price, f.qty)
    + if m.baseAsset == m.quoteAsset then NetBase(f.qty, m.takerFeeBp) else 0
  }

  /** The seller's leg changes a buyer's balance only when he sells to himself. */
  lemma MakerLegBuyer(ws: Wallets, m: Market, maker: Order, t: Taker, f: Fill)
    requires maker.side.Ask? && MakerLeg(ws, m, maker, f.price, f.qty).Some?
    ensures BuyerBalance(MakerLeg(ws, m, maker, f.price, f.qty).value, m, t) == BuyerBalance(ws, m, t) + OwnProceeds(m, maker, t, f)
  {
  }

  lemma TakerLegBuyer(ws: Wallets, m: Market, t: Taker, f: Fill)
    requires PaysFromBalance(t) && TakerLeg(ws, m, t.row, f.price, f.qty).Some?
    ensures BuyerBalance(ws, m, t) >= QuoteAmount(f.price, f.qty)
    ensures BuyerBalance(TakerLeg(ws, m, t.row, f.price, f.qty).value, m, t)
            == BuyerBalance(ws, m, t) - QuoteAmount(f.price, f.qty) + if m.baseAsset == m.quoteAsset then NetBase(f.qty, m.takerFeeBp) else 0
  {
  }

  lemma BuyerBalanceMoves(db: Db, m: Market, t: Taker, f: Fill, id: MatchId)
    requires PaysFromBalance(t) && f.makerId in db.orders && db.orders[f.makerId].side.Ask? && SettleFill(db, m, t, f, id).Some?
    ensures BuyerBalance(SettleFill(db, m, t, f, id).value.wallets, m, t)
            == BalanceAfter(m, db.orders[f.makerId], t, f, BuyerBalance(db.wallets, m, t))
    ensures BuyerBalance(db.wallets, m, t) + OwnProceeds(m, db.orders[f.makerId], t, f) >= QuoteAmount(f.price, f.qty)
  {
    hide MakerLeg, TakerLeg, BuyerBalance;
    var maker := db.orders[f.makerId];
    MakerLegBuyer(db.wallets, m, maker, t, f);
    TakerLegBuyer(MakerLeg(db.wallets, m, maker, f.price, f.qty).value, m, t, f);
  }

  /** With the locks in order the seller's or resting buyer's writes are never refused. */
  lemma MakerLegGoes(ms: Markets, db: Db, m: Market, t: Taker, f: Fill, rem: int)
    requires TakerOk(ms, m, db.orders, t) && GoodFill(db.orders, t, f) && f.qty <= rem
    requires WalletsOk(db.wallets) && FeesSane(m) && OrdersOk(ms, db.orders)
    requires LocksMatch(ms, db.wallets, WithTaker(db.orders, t, rem))
    ensures MakerLeg(db.wallets, m, db.orders[f.makerId], f.price, f.qty).Some?
  {
    var maker := db.orders[f.makerId];
    var view := WithTaker(db.orders, t, rem);
    assert LiveOrdersSane(ms, view);
    var mk := WalletKey(maker.userId, if maker.side.Ask? then m.baseAsset else m.quoteAsset);
    QuoteMonotone(f.qty, maker.leaveQty, f.price);
    ReservationIsLocked(ms, db.wallets, view, f.makerId, mk);
    MakerLegSucceeds(db.wallets, m, maker, f.price, f.qty);
  }

  /** Nor the taker's, if he pays from a reservation or can pay from his balance. */
  lemma TakerLegGoes(ms: Markets, db: Db, m: Market, t: Taker, f: Fill, rem: int)
    requires TakerOk(ms, m, db.orders, t) && GoodFill(db.orders, t, f) && f.qty <= rem
    requires WalletsOk(db.wallets) && FeesSane(m) && OrdersOk(ms, db.orders)
    requires LocksMatch(ms, db.wallets, WithTaker(db.orders, t, rem))
    requires MakerLeg(db.wallets, m, db.orders[f.makerId], f.price, f.qty).Some?
    requires PaysFromBalance(t) ==>
               BuyerBalance(db.wallets, m, t) + OwnProceeds(m, db.orders[f.makerId], t, f) >= QuoteAmount(f.price, f.qty)
    ensures TakerLeg(MakerLeg(db.wallets, m, db.orders[f.makerId], f.price, f.qty).value, m, t.row, f.price, f.qty).Some?
  {
    var maker := db.orders[f.makerId];
    var view := WithTaker(db.orders, t, rem);
    assert LiveOrdersSane(ms, view);
    var tk := WalletKey(t.row.userId, if t.row.side.Ask? then m.baseAsset else m.quoteAsset);
    var makerNow, takerNow := maker.(leaveQty := f.qty), t.row.(leaveQty := f.qty);
    forall k: WalletKey ensures ReservedFor(m, maker, k) >= ReservedFor(m, makerNow, k)
                     ensures ReservedFor(m, t.row.(leaveQty := rem), k) >= ReservedFor(m, takerNow, k)
    {
      QuoteMonotone(f.qty, maker.leaveQty, f.price);
      if t.row.price.Some? {
        QuoteMonotone(f.qty, rem, t.row.price.value);
      }
    }
    var w1 := MakerLeg(db.wallets, m, maker, f.price, f.qty).value;
    LegsKeepWalletsOk(db.wallets, m, maker, f.price, f.qty);
    MakerLegLocks(db.wallets, m, maker, f.price, f.qty, tk);
    TwoReservationsAreLocked(ms, db.wallets, view, f.makerId, t.id, tk);
    if PaysFromBalance(t) {
      MakerLegBuyer(db.wallets, m, maker, t, f);
    }
    TakerLegSucceeds(w1, m, t.row, f.price, f.qty);
  }

  /**
   With the locks in order and the match id free, one trade settles exactly if a
   MARKET buyer's balance, with what a trade with his own order brings him,
   covers the price. Nobody else is ever refused.
   */
  lemma SettleFillSucceeds(ms: Markets, db: Db, m: Market, t: Taker, f: Fill, id: MatchId, rem: int)
    requires TakerOk(ms, m, db.orders, t) && GoodFill(db.orders, t, f) && f.qty <= rem
    requires WalletsOk(db.wallets) && FeesSane(m) && OrdersOk(ms, db.orders)
    requires LocksMatch(ms, db.wallets, WithTaker(db.orders, t, rem))
    requires !MatchIdUsed(db.trades, id)
    ensures SettleFill(db, m, t, f, id).Some? <==>
              (PaysFromBalance(t) ==>
                 BuyerBalance(db.wallets, m, t) + OwnProceeds(m, db.orders[f.makerId], t, f) >= QuoteAmount(f.price, f.qty))
  {
    hide MakerLeg, TakerLeg, LocksMatch, WalletsOk, OrdersOk, BuyerBalance, OwnProceeds;
    MakerLegGoes(ms, db, m, t, f, rem);
    if PaysFromBalance(t) && SettleFill(db, m, t, f, id).Some? {
      BuyerBalanceMoves(db, m, t, f, id);
    } else if PaysFromBalance(t) ==>
                BuyerBalance(db.wallets, m, t) + OwnProceeds(m, db.orders[f.makerId], t, f) >= QuoteAmount(f.price, f.qty) {
      TakerLegGoes(ms, db, m, t, f, rem);
    }
  }
}
