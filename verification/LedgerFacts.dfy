/**
 What the writes of one settlement do to what is locked for each wallet and to
 what exists of each asset.
 */
module LedgerFacts {
  import opened Sums
  import opened OrderBook
  import opened Ledger

  ghost predicate WalletsOk(ws: Wallets) {
    forall k :: k in ws ==> CheckOk(ws[k])
  }

  function LockedAt(ws: Wallets, k: WalletKey): int {
    if k in ws then ws[k].locked else 0
  }

  function BalanceAt(ws: Wallets, k: WalletKey): int {
    if k in ws then ws[k].balance else 0
  }

  // --------------------------------------------------------------- arithmetic

  lemma NetBaseSplits(qty: int, bp: int)
    ensures NetBase(qty, bp) == BaseAmount(qty) - qty * bp * FEE_SCALE
  {
    assert qty * (BP - bp) == qty * BP - qty * bp;
  }

  lemma NetQuoteSplits(price: int, qty: int, bp: int)
    ensures NetQuote(price, qty, bp) == QuoteAmount(price, qty) - price * (qty * bp)
  {
  }

  lemma QuoteSplits(price: int, a: int, b: int)
    ensures QuoteAmount(price, a - b) == QuoteAmount(price, a) - QuoteAmount(price, b)
  {
    assert price * (a - b) == price * a - price * b;
  }

  lemma QuotePositive(price: int, qty: int)
    requires price > 0 && qty > 0
    ensures QuoteAmount(price, qty) > 0
  {
    assert price * qty > 0;
  }

  lemma QuoteMonotone(low: int, high: int, qty: int)
    requires low <= high && qty >= 0
    ensures QuoteAmount(low, qty) <= QuoteAmount(high, qty)
  {
  }

  lemma NetAmountsNonNegative(price: int, qty: int, bp: int)
    requires price > 0 && qty > 0 && 0 <= bp <= BP
    ensures NetBase(qty, bp) >= 0 && NetQuote(price, qty, bp) >= 0
  {
  }

  // ------------------------------------------------------------- conservation

  ghost function Holdings(ws: Wallets, a: Asset): map<WalletKey, int> {
    map k | k in ws :: if k.asset == a then ws[k].balance + ws[k].locked else 0
  }

  /** Everything that exists of an asset, free or locked. */
  ghost function Supply(ws: Wallets, a: Asset): int {
    MapSum(Holdings(ws, a))
  }

  lemma WriteMovesSupply(ws: Wallets, k: WalletKey, w: Wallet, a: Asset)
    ensures Supply(ws[k := w], a)
            == Supply(ws, a) + if k.asset == a then w.balance + w.locked - BalanceAt(ws, k) - LockedAt(ws, k) else 0
  {
    var v := if k.asset == a then w.balance + w.locked else 0;
    MapSumUpdate(Holdings(ws, a), k, v);
    assert Holdings(ws[k := w], a) == Holdings(ws, a)[k := v];
  }

  lemma UpdateMovesSupply(ws: Wallets, k: WalletKey, balance: int, locked: int, a: Asset)
    requires UpdateWallet(ws, k, balance, locked).Some?
    ensures Supply(UpdateWallet(ws, k, balance, locked).value, a)
            == Supply(ws, a) + if k.asset == a then balance + locked else 0
  {
    WriteMovesSupply(ws, k, Wallet(ws[k].balance + balance, ws[k].locked + locked), a);
  }

  lemma CreditMovesSupply(ws: Wallets, k: WalletKey, amount: int, a: Asset)
    requires CreditWallet(ws, k, amount).Some?
    ensures Supply(CreditWallet(ws, k, amount).value, a) == Supply(ws, a) + if k.asset == a then amount else 0
  {
    var w := if k in ws then Wallet(ws[k].balance + amount, ws[k].locked) else Wallet(amount, 0);
    WriteMovesSupply(ws, k, w, a);
  }

  /** The fee a trade takes out of circulation: the buyer's in base, the seller's in quote at the trade price. */
  function FeeTaken(m: Market, t: Trade, a: Asset): int {
    var buyerFee := if t.makerSide.Bid? then t.makerFee else t.takerFee;
    var sellerFee := if t.makerSide.Bid? then t.takerFee else t.makerFee;
    (if m.baseAsset == a then buyerFee * FEE_SCALE else 0) + (if m.quoteAsset == a then t.price * sellerFee else 0)
  }

  function FeesTaken(ms: Markets, ts: seq<Trade>, a: Asset): int {
    if ts == [] then 0
    else
      var t := ts[|ts| - 1];
      FeesTaken(ms, ts[..|ts| - 1], a) + if t.market in ms then FeeTaken(ms[t.market], t, a) else 0
  }

  lemma FeesTakenAppend(ms: Markets, ts: seq<Trade>, t: Trade, a: Asset)
    ensures FeesTaken(ms, ts + [t], a) == FeesTaken(ms, ts, a) + if t.market in ms then FeeTaken(ms[t.market], t, a) else 0
  {
    assert (ts + [t])[..|ts|] == ts;
  }

  lemma MakerLegSupply(ws: Wallets, m: Market, maker: Order, price: int, qty: int, a: Asset)
    requires MakerLeg(ws, m, maker, price, qty).Some?
    ensures Supply(MakerLeg(ws, m, maker, price, qty).value, a) == Supply(ws, a)
              + (if m.baseAsset == a then (if maker.side.Ask? then -BaseAmount(qty) else NetBase(qty, m.makerFeeBp)) else 0)
              + (if m.quoteAsset == a then (if maker.side.Ask? then NetQuote(price, qty, m.makerFeeBp) else -QuoteAmount(price, qty)) else 0)
  {
    hide Supply, QuoteAmount, BaseAmount, NetBase, NetQuote;
    if maker.side.Ask? {
      var k := WalletKey(maker.userId, m.baseAsset);
      var w1 := UpdateWallet(ws, k, 0, -BaseAmount(qty)).value;
      UpdateMovesSupply(ws, k, 0, -BaseAmount(qty), a);
      CreditMovesSupply(w1, WalletKey(maker.userId, m.quoteAsset), NetQuote(price, qty, m.makerFeeBp), a);
    } else {
      var k := WalletKey(maker.userId, m.quoteAsset);
      var reserved := QuoteAmount(maker.price.value, qty);
      var refund := reserved - QuoteAmount(price, qty);
      var w1 := UpdateWallet(ws, k, refund, -reserved).value;
      UpdateMovesSupply(ws, k, refund, -reserved, a);
      CreditMovesSupply(w1, WalletKey(maker.userId, m.baseAsset), NetBase(qty, m.makerFeeBp), a);
    }
  }

  lemma BuyerPaysSupply(ws: Wallets, m: Market, taker: Order, price: int, qty: int, a: Asset)
    requires BuyerPays(ws, m, taker, price, qty).Some?
    ensures Supply(BuyerPays(ws, m, taker, price, qty).value, a)
            == Supply(ws, a) - if m.quoteAsset == a then QuoteAmount(price, qty) else 0
  {
    hide Supply;
    var k := WalletKey(taker.userId, m.quoteAsset);
    var cost := QuoteAmount(price, qty);
    if taker.orderType.LIMIT? && taker.price.Some? {
      var reserved := QuoteAmount(taker.price.value, qty);
      UpdateMovesSupply(ws, k, reserved - cost, -reserved, a);
    } else {
      UpdateMovesSupply(ws, k, -cost, 0, a);
    }
  }

  lemma TakerLegSupply(ws: Wallets, m: Market, taker: Order, price: int, qty: int, a: Asset)
    requires TakerLeg(ws, m, taker, price, qty).Some?
    ensures Supply(TakerLeg(ws, m, taker, price, qty).value, a) == Supply(ws, a)
              + (if m.baseAsset == a then (if taker.side.Ask? then -BaseAmount(qty) else NetBase(qty, m.takerFeeBp)) else 0)
              + (if m.quoteAsset == a then (if taker.side.Ask? then NetQuote(price, qty, m.takerFeeBp) else -QuoteAmount(price, qty)) else 0)
  {
    hide Supply, QuoteAmount, BaseAmount, NetBase, NetQuote;
    if taker.side.Ask? {
      var k := WalletKey(taker.userId, m.baseAsset);
      var w1 := UpdateWallet(ws, k, 0, -BaseAmount(qty)).value;
      UpdateMovesSupply(ws, k, 0, -BaseAmount(qty), a);
      CreditMovesSupply(w1, WalletKey(taker.userId, m.quoteAsset), NetQuote(price, qty, m.takerFeeBp), a);
    } else {
      BuyerPaysSupply(ws, m, taker, price, qty, a);
      var w1 := BuyerPays(ws, m, taker, price, qty).value;
      CreditMovesSupply(w1, WalletKey(taker.userId, m.baseAsset), NetBase(qty, m.takerFeeBp), a);
    }
  }

  /** Settling one trade moves assets between wallets and takes exactly the recorded fees. */
  lemma SettleFillConserves(ms: Markets, db: Db, m: Market, t: Taker, f: Fill, id: MatchId, a: Asset)
    requires SettleFill(db, m, t, f, id).Some?
    requires m.symbol in ms && ms[m.symbol] == m
    requires db.orders[f.makerId].side == t.row.side.Opposite()
    ensures var d := SettleFill(db, m, t, f, id).value;
            Supply(d.wallets, a) + FeesTaken(ms, d.trades, a) == Supply(db.wallets, a) + FeesTaken(ms, db.trades, a)
  {
    var maker := db.orders[f.makerId];
    var w1 := MakerLeg(db.wallets, m, maker, f.price, f.qty).value;
    MakerLegSupply(db.wallets, m, maker, f.price, f.qty, a);
    TakerLegSupply(w1, m, t.row, f.price, f.qty, a);
    FeesTakenAppend(ms, db.trades, TradeRow(m, maker, t, f, id), a);
    NetBaseSplits(f.qty, m.makerFeeBp);
    NetBaseSplits(f.qty, m.takerFeeBp);
    NetQuoteSplits(f.price, f.qty, m.makerFeeBp);
    NetQuoteSplits(f.price, f.qty, m.takerFeeBp);
  }

  // ------------------------------------------------------------ reservations

  /** What a live order keeps locked in one wallet. */
  function ReservedFor(m: Market, o: Order, k: WalletKey): int {
    if o.userId != k.user || Terminal(o.status) then 0
    else if o.side.Bid? then
      if o.price.Some? && m.quoteAsset == k.asset then QuoteAmount(o.price.value, o.leaveQty) else 0
    else if m.baseAsset == k.asset then BaseAmount(o.leaveQty) else 0
  }

  ghost function Reservations(ms: Markets, orders: map<OrderId, Order>, k: WalletKey): map<OrderId, int> {
    map id | id in orders :: if orders[id].market in ms then ReservedFor(ms[orders[id].market], orders[id], k) else 0
  }

  /** The sum of the reservations of all OPEN and PARTIAL orders in one wallet. */
  ghost function Reserved(ms: Markets, orders: map<OrderId, Order>, k: WalletKey): int {
    MapSum(Reservations(ms, orders, k))
  }

  lemma OrderWriteMovesReserved(ms: Markets, orders: map<OrderId, Order>, id: OrderId, o: Order, k: WalletKey)
    requires o.market in ms
    requires id in orders ==> orders[id].market == o.market
    ensures Reserved(ms, orders[id := o], k) == Reserved(ms, orders, k)
              - (if id in orders then ReservedFor(ms[o.market], orders[id], k) else 0)
              + ReservedFor(ms[o.market], o, k)
  {
    MapSumUpdate(Reservations(ms, orders, k), id, ReservedFor(ms[o.market], o, k));
    assert Reservations(ms, orders[id := o], k) == Reservations(ms, orders, k)[id := ReservedFor(ms[o.market], o, k)];
  }

  lemma MakerLegLocks(ws: Wallets, m: Market, maker: Order, price: int, qty: int, k: WalletKey)
    requires MakerLeg(ws, m, maker, price, qty).Some? && !Terminal(maker.status)
    ensures LockedAt(MakerLeg(ws, m, maker, price, qty).value, k)
            == LockedAt(ws, k) - ReservedFor(m, maker.(leaveQty := qty), k)
  {
  }

  /** A limit order or an ASK gives up its reservation as it trades; a MARKET BID has none. */
  lemma TakerLegLocks(ws: Wallets, m: Market, taker: Order, price: int, qty: int, k: WalletKey)
    requires TakerLeg(ws, m, taker, price, qty).Some? && !Terminal(taker.status)
    requires taker.orderType.LIMIT? <==> taker.price.Some?
    ensures LockedAt(TakerLeg(ws, m, taker, price, qty).value, k)
            == LockedAt(ws, k) - ReservedFor(m, taker.(leaveQty := qty), k)
  {
  }

  lemma ReservedSplits(m: Market, o: Order, qty: int, k: WalletKey)
    requires !Terminal(o.status)
    ensures ReservedFor(m, o.(leaveQty := o.leaveQty - qty), k)
            == ReservedFor(m, o, k) - ReservedFor(m, o.(leaveQty := qty), k)
  {
  }

  lemma LegsKeepWalletsOk(ws: Wallets, m: Market, o: Order, price: int, qty: int)
    requires WalletsOk(ws)
    ensures MakerLeg(ws, m, o, price, qty).Some? ==> WalletsOk(MakerLeg(ws, m, o, price, qty).value)
    ensures TakerLeg(ws, m, o, price, qty).Some? ==> WalletsOk(TakerLeg(ws, m, o, price, qty).value)
  {
  }
}
