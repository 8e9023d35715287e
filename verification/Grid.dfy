/**
 Grid exactness. Columns store twelve decimals, that is, multiples of GRID
 wallet units. On a market whose tick, step and fees fit the grid no amount
 that is ever written needs rounding, whatever happens to its commands.
 */
module Grid {
  import opened Wrappers
  import opened OrderBook
  import opened MarketSweep
  import opened Ledger
  import opened SettleFacts
  import opened Settlement
  import opened Invariant
  import opened BookLink
  import opened SubmitProof
  import opened Exchange

  /** 10^-12 in wallet units. */
  const GRID: int := BASE_SCALE

  // --------------------------------------------------------------- multiples

  function Times(k: int, unit: int): int {
    k * unit
  }

  ghost predicate Multiple(x: int, unit: int) {
    exists k :: x == Times(k, unit)
  }

  lemma MultipleSum(x: int, y: int, unit: int)
    requires Multiple(x, unit) && Multiple(y, unit)
    ensures Multiple(x + y, unit) && Multiple(x - y, unit)
  {
    var i :| x == Times(i, unit);
    var j :| y == Times(j, unit);
    assert x + y == Times(i + j, unit) && x - y == Times(i - j, unit);
  }

  lemma MultipleZero(unit: int)
    ensures Multiple(0, unit)
  {
    assert 0 == Times(0, unit);
  }

  lemma GridMultiple(x: int)
    ensures Multiple(x, GRID) <==> x % GRID == 0
  {
    if x % GRID == 0 {
      assert x == Times(x / GRID, GRID);
    }
    if Multiple(x, GRID) {
      var k :| x == Times(k, GRID);
      TimesGrid(k);
    }
  }

  lemma TimesGrid(k: int)
    ensures Times(k, GRID) % GRID == 0
  {
    assert k * 10_000_000_000_000_000 % 10_000_000_000_000_000 == 0;
  }

  /** Reduced to a product of integers: i ticks times j steps is i*j times tick times step. */
  lemma Regrouped(i: int, tick: int, j: int, step: int, c: int)
    ensures Times(i, tick) * Times(j, step) * c == Times(i * j, tick * step * c)
    ensures Times(j, step) * c == Times(j, step * c)
  {
    Assoc(j, step, c);
    Assoc(i * j, tick * step, c);
    calc {
      Times(i, tick) * Times(j, step);
      (i * tick) * (j * step);
      { Assoc(i, tick, j * step); Assoc(tick, j, step); Assoc(j, tick, step); }
      i * (j * (tick * step));
      { Assoc(i, j, tick * step); }
      (i * j) * (tick * step);
    }
  }

  lemma Assoc(a: int, b: int, c: int)
    ensures a * b * c == a * (b * c) && a * b == b * a
  {
  }

  lemma ScaledOnGrid(k: int, x: int)
    requires x % GRID == 0
    ensures Times(k, x) % GRID == 0
  {
    GridMultiple(x);
    var j :| x == Times(j, GRID);
    Assoc(k, j, GRID);
    assert Times(k, x) == Times(k * j, GRID);
    GridMultiple(Times(k, x));
  }

  // ----------------------------------------------------------------- markets

  /** Every amount a trade or a reservation at this price and quantity writes to a wallet. */
  predicate AmountsOnGrid(m: Market, price: int, qty: int) {
    && QuoteAmount(price, qty) % GRID == 0
    && NetQuote(price, qty, m.makerFeeBp) % GRID == 0
    && NetQuote(price, qty, m.takerFeeBp) % GRID == 0
    && NetBase(qty, m.makerFeeBp) % GRID == 0
    && NetBase(qty, m.takerFeeBp) % GRID == 0
  }

  /** One step at one tick is representable, and so are its fees. */
  predicate GridMarket(m: Market) {
    AmountsOnGrid(m, m.tickSize, m.stepSize)
  }

  lemma AmountsScale(m: Market, i: int, j: int)
    requires GridMarket(m)
    ensures AmountsOnGrid(m, Times(i, m.tickSize), Times(j, m.stepSize))
  {
    forall bp ensures Scaled(m, i, j, bp) {
      ScaledAmounts(m, i, j, bp);
    }
    assert Scaled(m, i, j, 0) && Scaled(m, i, j, m.makerFeeBp) && Scaled(m, i, j, m.takerFeeBp);
    ScaledOnGrid(i * j, QuoteAmount(m.tickSize, m.stepSize));
    ScaledOnGrid(i * j, NetQuote(m.tickSize, m.stepSize, m.makerFeeBp));
    ScaledOnGrid(i * j, NetQuote(m.tickSize, m.stepSize, m.takerFeeBp));
    ScaledOnGrid(j, NetBase(m.stepSize, m.makerFeeBp));
    ScaledOnGrid(j, NetBase(m.stepSize, m.takerFeeBp));
  }

  lemma ScaledAmounts(m: Market, i: int, j: int, bp: int)
    ensures Scaled(m, i, j, bp)
  {
    Regrouped(i, m.tickSize, j, m.stepSize, BP - bp);
    Assoc(Times(j, m.stepSize), BP - bp, FEE_SCALE);
    Assoc(m.stepSize, BP - bp, FEE_SCALE);
    Regrouped(i, m.tickSize, j, m.stepSize, (BP - bp) * FEE_SCALE);
  }

  /** Amounts grow in proportion to the numbers of ticks and steps. */
  ghost predicate Scaled(m: Market, i: int, j: int, bp: int) {
    && NetQuote(Times(i, m.tickSize), Times(j, m.stepSize), bp) == Times(i * j, NetQuote(m.tickSize, m.stepSize, bp))
    && NetBase(Times(j, m.stepSize), bp) == Times(j, NetBase(m.stepSize, bp))
  }

  /** An order the API accepts on this market. */
  predicate AcceptedLimitOrder(m: Market, r: OrderRequest) {
    r.market == m.symbol && r.orderType.LIMIT? && Validate(Some(false), map[m.symbol := m], r).None?
  }

  /**
   Exactly on these markets is every amount of every limit order the API accepts
   representable: a market off the grid already fails on an order of one step.
   */
  lemma GridMarketExact(m: Market)
    requires m.enabled && m.tickSize > 0 && m.stepSize > 0
    ensures GridMarket(m) <==> forall r :: AcceptedLimitOrder(m, r) ==> AmountsOnGrid(m, r.price.value, r.quantity)
  {
    if GridMarket(m) {
      forall r | AcceptedLimitOrder(m, r) ensures AmountsOnGrid(m, r.price.value, r.quantity) {
        OnGridIsMultiple(r.quantity, m.stepSize);
        OnGridIsMultiple(r.price.value, m.tickSize);
        AmountsAt(m, r.price.value, r.quantity);
      }
    } else {
      var r := OffGridOrder(m);
    }
  }

  /** A price of n * 10^16 + 1 ticks, n large enough for the minimum notional, is as far off the grid as one tick. */
  lemma OffGridOrder(m: Market) returns (r: OrderRequest)
    requires m.enabled && m.tickSize > 0 && m.stepSize > 0 && !GridMarket(m)
    ensures AcceptedLimitOrder(m, r) && !AmountsOnGrid(m, r.price.value, r.quantity)
  {
    var n: nat := if m.minNotional > 0 then m.minNotional * NOTIONAL_SCALE else 0;
    var i := n * GRID + 1;
    var price := Times(i, m.tickSize);
    r := OrderRequest(m.symbol, Bid, LIMIT, Some(price), m.stepSize);
    assert Times(1, m.stepSize) == m.stepSize && OnGrid(m.stepSize, m.stepSize);
    TimesOnGrid(i, m.tickSize);
    NotionalReached(n, m.tickSize, m.stepSize);
    OffGridByOneTick(m, n);
  }

  /** A whole number of units passes the API's check. */
  lemma TimesOnGrid(i: nat, unit: int)
    requires unit > 0
    ensures OnGrid(Times(i, unit), unit) && Times(i, unit) >= i
  {
    var x := Times(i, unit);
    assert x == x / unit * unit + x % unit;
    var d := i - x / unit;
    assert x % unit == d * unit;
    NoMultipleBetween(d, unit);
    ProductAtLeast(i, unit);
  }

  lemma NoMultipleBetween(d: int, unit: int)
    requires unit > 0 && 0 <= d * unit < unit
    ensures d == 0
  {
    if d > 0 {
      ProductAtLeast(unit, d);
    }
  }

  lemma NotionalReached(n: nat, tick: int, step: int)
    requires tick > 0 && step > 0
    ensures Times(n * GRID + 1, tick) * step >= n && Times(n * GRID + 1, tick) > 0
  {
    TimesOnGrid(n * GRID + 1, tick);
    var p := Times(n * GRID + 1, tick);
    assert p >= n * GRID + 1 >= n + 1;
    ProductAtLeast(p, step);
  }

  lemma ProductAtLeast(p: int, step: int)
    requires p >= 0 && step > 0
    ensures p * step >= p && step * p >= p
  {
  }

  /** Adding a multiple of 10^16 ticks does not change what is left over. */
  lemma OffGridByOneTick(m: Market, n: nat)
    requires !GridMarket(m)
    ensures !AmountsOnGrid(m, Times(n * GRID + 1, m.tickSize), m.stepSize)
  {
    var i := n * GRID + 1;
    if AmountsOnGrid(m, Times(i, m.tickSize), m.stepSize) {
      assert Times(1, m.stepSize) == m.stepSize;
      forall bp ensures Scaled(m, i, 1, bp) {
        ScaledAmounts(m, i, 1, bp);
      }
      assert Scaled(m, i, 1, 0) && Scaled(m, i, 1, m.makerFeeBp) && Scaled(m, i, 1, m.takerFeeBp);
      SameRest(n, QuoteAmount(m.tickSize, m.stepSize));
      SameRest(n, NetQuote(m.tickSize, m.stepSize, m.makerFeeBp));
      SameRest(n, NetQuote(m.tickSize, m.stepSize, m.takerFeeBp));
    }
  }

  lemma SameRest(n: nat, x: int)
    requires Times(n * GRID + 1, x) % GRID == 0
    ensures x % GRID == 0
  {
    Assoc(n, GRID, x);
    Assoc(n, x, GRID);
    assert Times(n * GRID + 1, x) == Times(n * x, GRID) + x;
    TimesGrid(n * x);
    ModSum(Times(n * GRID + 1, x), Times(n * x, GRID));
  }

  /** The fee-independent form: step * 10^-4 and tick * step * 10^-4 are multiples of 10^-12. */
  lemma DivisibleMarket(m: Market)
    requires m.stepSize % BP == 0 && (m.tickSize * m.stepSize) % GRID == 0
    ensures GridMarket(m)
  {
    var ts := m.tickSize * m.stepSize;
    forall bp ensures Representable(m, bp) {
      ScaledOnGrid(BP - bp, ts);
      assert NetQuote(m.tickSize, m.stepSize, bp) == Times(BP - bp, ts);
      var k := m.stepSize / BP;
      assert m.stepSize == k * BP;
      Assoc(k, BP, BP - bp);
      Assoc(k, BP - bp, BP);
      Assoc(k * (BP - bp), BP, FEE_SCALE);
      assert NetBase(m.stepSize, bp) == Times(k * (BP - bp), GRID);
      TimesGrid(k * (BP - bp));
    }
    assert Representable(m, 0) && Representable(m, m.makerFeeBp) && Representable(m, m.takerFeeBp);
  }

  ghost predicate Representable(m: Market, bp: int) {
    NetQuote(m.tickSize, m.stepSize, bp) % GRID == 0 && NetBase(m.stepSize, bp) % GRID == 0
  }

  ghost predicate GridMarkets(ms: Markets) {
    forall s :: s in ms ==> GridMarket(ms[s])
  }

  // ------------------------------------------------------------------- state

  ghost predicate WalletsOnGrid(ws: Wallets) {
    forall k :: k in ws ==> ws[k].balance % GRID == 0 && ws[k].locked % GRID == 0
  }

  ghost predicate OrderOnGrid(m: Market, o: Order) {
    && Multiple(o.quantity, m.stepSize) && Multiple(o.leaveQty, m.stepSize)
    && (o.price.Some? ==> Multiple(o.price.value, m.tickSize))
  }

  ghost predicate OrdersOnGrid(ms: Markets, orders: map<OrderId, Order>) {
    forall id :: id in orders && orders[id].market in ms ==> OrderOnGrid(ms[orders[id].market], orders[id])
  }

  /** A fee in quantity units times basis points is a whole number of quantity units. */
  ghost predicate FeesOnGrid(ts: seq<Trade>) {
    forall i :: 0 <= i < |ts| ==> ts[i].makerFee % BP == 0 && ts[i].takerFee % BP == 0
  }

  ghost predicate EntryOnGrid(m: Market, e: Entry) {
    Multiple(e.price, m.tickSize) && Multiple(e.qty, m.stepSize)
  }

  ghost predicate QueueOnGrid(m: Market, q: seq<Entry>) {
    forall e :: e in q ==> EntryOnGrid(m, e)
  }

  ghost predicate BookOnGrid(m: Market, b: Book) {
    QueueOnGrid(m, b.bids) && QueueOnGrid(m, b.asks)
  }

  ghost predicate BooksOnGrid(ms: Markets, books: map<Symbol, Book>) {
    forall s :: s in books && s in ms ==> BookOnGrid(ms[s], books[s])
  }

  ghost predicate DbOnGrid(ms: Markets, db: Db) {
    WalletsOnGrid(db.wallets) && OrdersOnGrid(ms, db.orders) && FeesOnGrid(db.trades)
  }

  ghost predicate OnTheGrid(ms: Markets, s: State) {
    DbOnGrid(ms, s.db) && BooksOnGrid(ms, s.books)
  }

  // ---------------------------------------------------------------- the book

  ghost predicate FillOnGrid(m: Market, f: Fill) {
    Multiple(f.price, m.tickSize) && Multiple(f.qty, m.stepSize)
  }

  ghost predicate FillsOnGrid(m: Market, fills: seq<Fill>) {
    forall i :: 0 <= i < |fills| ==> FillOnGrid(m, fills[i])
  }

  lemma {:induction false} MatchOnGrid(m: Market, q: seq<Entry>, side: Side, limit: Option<int>, want: int)
    requires QueueOnGrid(m, q) && Multiple(want, m.stepSize)
    ensures var r := Match(q, side, limit, want);
            FillsOnGrid(m, r.fills) && QueueOnGrid(m, r.queue) && Multiple(r.leave, m.stepSize)
    decreases |q|
  {
    if !(want <= 0 || q == [] || !Crosses(side, limit, q[0].price)) {
      assert EntryOnGrid(m, q[0]);
      MultipleSum(q[0].qty, want, m.stepSize);
      MultipleSum(want, q[0].qty, m.stepSize);
      MultipleZero(m.stepSize);
      if want < q[0].qty {
        assert EntryOnGrid(m, q[0].(qty := q[0].qty - want));
      } else {
        MatchOnGrid(m, q[1..], side, limit, want - q[0].qty);
      }
    }
  }

  /** Every trade is against an entry of the queue. */
  lemma {:induction false} FillFromQueue(q: seq<Entry>, side: Side, limit: Option<int>, want: int, i: nat) returns (e: Entry)
    requires i < |Match(q, side, limit, want).fills|
    ensures e in q && e.id == Match(q, side, limit, want).fills[i].makerId
    decreases |q|
  {
    if want < q[0].qty || i == 0 {
      e := q[0];
    } else {
      e := FillFromQueue(q[1..], side, limit, want - q[0].qty, i - 1);
    }
  }

  lemma AddOnGrid(m: Market, b: Book, id: nat, side: Side, price: int, qty: int)
    requires BookOnGrid(m, b) && Multiple(price, m.tickSize) && Multiple(qty, m.stepSize)
    requires Add(b, id, side, price, qty).Added?
    ensures var a := Add(b, id, side, price, qty);
            BookOnGrid(m, a.book) && FillsOnGrid(m, a.fills) && Multiple(a.leave, m.stepSize)
  {
    MatchOnGrid(m, b.Queue(side.Opposite()), side, Some(price), qty);
    var a := Add(b, id, side, price, qty);
    var e := Entry(id, price, a.leave);
    assert EntryOnGrid(m, e);
    InsertMembers(side, b.Queue(side), e);
  }

  lemma {:induction false} LevelsOnGrid(m: Market, q: seq<Entry>)
    requires QueueOnGrid(m, q)
    ensures forall i :: 0 <= i < |Levels(q)| ==> LevelOnGrid(m, Levels(q)[i])
    decreases |q|
  {
    if q != [] {
      LevelsOnGrid(m, q[1..]);
      assert EntryOnGrid(m, q[0]);
      var ls := Levels(q[1..]);
      if ls != [] {
        assert LevelOnGrid(m, ls[0]);
        MultipleSum(q[0].qty, ls[0].qty, m.stepSize);
      }
    }
  }

  ghost predicate LevelOnGrid(m: Market, l: Level) {
    Multiple(l.price, m.tickSize) && Multiple(l.qty, m.stepSize)
  }

  // ----------------------------------------------------------- wallet writes

  lemma ModSum(a: int, b: int)
    requires a % GRID == 0 && b % GRID == 0
    ensures (a + b) % GRID == 0 && (a - b) % GRID == 0 && (-b) % GRID == 0
  {
    GridMultiple(a);
    GridMultiple(b);
    MultipleZero(GRID);
    MultipleSum(a, b, GRID);
    MultipleSum(0, b, GRID);
    GridMultiple(a + b);
    GridMultiple(a - b);
    GridMultiple(0 - b);
  }

  lemma BaseOnGrid(qty: int)
    ensures BaseAmount(qty) % GRID == 0
  {
    TimesGrid(qty);
  }

  lemma UpdateOnGrid(ws: Wallets, k: WalletKey, balance: int, locked: int)
    requires WalletsOnGrid(ws) && balance % GRID == 0 && locked % GRID == 0
    ensures UpdateWallet(ws, k, balance, locked).Some? ==> WalletsOnGrid(UpdateWallet(ws, k, balance, locked).value)
  {
  }

  lemma CreditOnGrid(ws: Wallets, k: WalletKey, amount: int)
    requires WalletsOnGrid(ws) && amount % GRID == 0
    ensures CreditWallet(ws, k, amount).Some? ==> WalletsOnGrid(CreditWallet(ws, k, amount).value)
  {
  }

  lemma AmountsAt(m: Market, price: int, qty: int)
    requires GridMarket(m) && Multiple(price, m.tickSize) && Multiple(qty, m.stepSize)
    ensures AmountsOnGrid(m, price, qty) && BaseAmount(qty) % GRID == 0
  {
    var i :| price == Times(i, m.tickSize);
    var j :| qty == Times(j, m.stepSize);
    AmountsScale(m, i, j);
    BaseOnGrid(qty);
  }

  lemma MakerLegOnGrid(ws: Wallets, m: Market, maker: Order, price: int, qty: int)
    requires GridMarket(m) && WalletsOnGrid(ws) && Multiple(price, m.tickSize) && Multiple(qty, m.stepSize) && OrderOnGrid(m, maker)
    requires MakerLeg(ws, m, maker, price, qty).Some?
    ensures WalletsOnGrid(MakerLeg(ws, m, maker, price, qty).value)
  {
    hide UpdateWallet, CreditWallet, WalletsOnGrid, BaseAmount, QuoteAmount, NetBase, NetQuote, GridMarket;
    AmountsAt(m, price, qty);
    ModSum(0, BaseAmount(qty));
    if maker.side.Ask? {
      var base := WalletKey(maker.userId, m.baseAsset);
      UpdateOnGrid(ws, base, 0, -BaseAmount(qty));
      CreditOnGrid(UpdateWallet(ws, base, 0, -BaseAmount(qty)).value, WalletKey(maker.userId, m.quoteAsset), NetQuote(price, qty, m.makerFeeBp));
    } else {
      AmountsAt(m, maker.price.value, qty);
      var reserved := QuoteAmount(maker.price.value, qty);
      var refund := reserved - QuoteAmount(price, qty);
      ModSum(reserved, QuoteAmount(price, qty));
      ModSum(0, reserved);
      var quote := WalletKey(maker.userId, m.quoteAsset);
      UpdateOnGrid(ws, quote, refund, -reserved);
      CreditOnGrid(UpdateWallet(ws, quote, refund, -reserved).value, WalletKey(maker.userId, m.baseAsset), NetBase(qty, m.makerFeeBp));
    }
  }

  lemma BuyerPaysOnGrid(ws: Wallets, m: Market, taker: Order, price: int, qty: int)
    requires GridMarket(m) && WalletsOnGrid(ws) && Multiple(price, m.tickSize) && Multiple(qty, m.stepSize) && OrderOnGrid(m, taker)
    requires BuyerPays(ws, m, taker, price, qty).Some?
    ensures WalletsOnGrid(BuyerPays(ws, m, taker, price, qty).value)
  {
    hide UpdateWallet, WalletsOnGrid, QuoteAmount, GridMarket;
    AmountsAt(m, price, qty);
    var quote := WalletKey(taker.userId, m.quoteAsset);
    if taker.orderType.LIMIT? && taker.price.Some? {
      AmountsAt(m, taker.price.value, qty);
      var reserved := QuoteAmount(taker.price.value, qty);
      ModSum(reserved, QuoteAmount(price, qty));
      ModSum(0, reserved);
      UpdateOnGrid(ws, quote, reserved - QuoteAmount(price, qty), -reserved);
    } else {
      ModSum(0, QuoteAmount(price, qty));
      UpdateOnGrid(ws, quote, -QuoteAmount(price, qty), 0);
    }
  }

  lemma TakerLegOnGrid(ws: Wallets, m: Market, taker: Order, price: int, qty: int)
    requires GridMarket(m) && WalletsOnGrid(ws) && Multiple(price, m.tickSize) && Multiple(qty, m.stepSize) && OrderOnGrid(m, taker)
    requires TakerLeg(ws, m, taker, price, qty).Some?
    ensures WalletsOnGrid(TakerLeg(ws, m, taker, price, qty).value)
  {
    hide UpdateWallet, CreditWallet, BuyerPays, WalletsOnGrid, BaseAmount, QuoteAmount, NetBase, NetQuote, GridMarket;
    AmountsAt(m, price, qty);
    if taker.side.Bid? {
      BuyerPaysOnGrid(ws, m, taker, price, qty);
      CreditOnGrid(BuyerPays(ws, m, taker, price, qty).value, WalletKey(taker.userId, m.baseAsset), NetBase(qty, m.takerFeeBp));
    } else {
      ModSum(0, BaseAmount(qty));
      var base := WalletKey(taker.userId, m.baseAsset);
      UpdateOnGrid(ws, base, 0, -BaseAmount(qty));
      CreditOnGrid(UpdateWallet(ws, base, 0, -BaseAmount(qty)).value, WalletKey(taker.userId, m.quoteAsset), NetQuote(price, qty, m.takerFeeBp));
    }
  }

  // -------------------------------------------------------------- settlement

  lemma FeeOnGrid(m: Market, qty: int)
    requires GridMarket(m) && Multiple(qty, m.stepSize)
    ensures (qty * m.makerFeeBp) % BP == 0 && (qty * m.takerFeeBp) % BP == 0
  {
    hide GridMarket, Multiple, NetBase;
    MultipleZero(m.tickSize);
    AmountsAt(m, 0, qty);
    FeeWhole(qty, m.makerFeeBp);
    FeeWhole(qty, m.takerFeeBp);
  }

  /** What is credited and the fee make up the quantity, so both are whole or neither is. */
  lemma FeeWhole(qty: int, bp: int)
    requires NetBase(qty, bp) % GRID == 0
    ensures (qty * bp) % BP == 0
  {
    GridMultiple(NetBase(qty, bp));
    var k :| NetBase(qty, bp) == Times(k, GRID);
    NetIsWhole(qty * (BP - bp), k);
    WholeRest(qty, bp, k);
  }

  lemma NetIsWhole(net: int, k: int)
    requires net * FEE_SCALE == Times(k, GRID)
    ensures net == k * BP
  {
  }

  lemma Distribute(x: int, y: int, z: int)
    ensures x * (y - z) == x * y - x * z
  {
  }

  lemma TimesBp(k: int)
    ensures (k * BP) % BP == 0
  {
  }

  lemma WholeRest(qty: int, bp: int, k: int)
    requires qty * (BP - bp) == k * BP
    ensures (qty * bp) % BP == 0
  {
    Distribute(qty, BP, bp);
    assert qty * bp == (qty - k) * BP;
    TimesBp(qty - k);
  }

  /** Everything one settled trade reads is on the grid of its market. */
  ghost predicate TradeInputs(ms: Markets, db: Db, m: Market, t: Taker, f: Fill) {
    && DbOnGrid(ms, db) && GridMarket(m) && m.symbol in ms && ms[m.symbol] == m
    && OrderOnGrid(m, t.row) && FillOnGrid(m, f)
    && (f.makerId in db.orders ==> db.orders[f.makerId].market == m.symbol)
  }

  lemma MakerRowOnGrid(m: Market, maker: Order, qty: int)
    requires OrderOnGrid(m, maker) && Multiple(qty, m.stepSize)
    ensures OrderOnGrid(m, MakerAfter(maker, qty))
  {
    MultipleSum(maker.leaveQty, qty, m.stepSize);
  }

  lemma SettleFillOnGrid(ms: Markets, db: Db, m: Market, t: Taker, f: Fill, id: MatchId)
    requires TradeInputs(ms, db, m, t, f) && SettleFill(db, m, t, f, id).Some?
    ensures DbOnGrid(ms, SettleFill(db, m, t, f, id).value)
  {
    hide MakerLeg, TakerLeg, WalletsOnGrid, OrderOnGrid, GridMarket, Multiple;
    var maker := db.orders[f.makerId];
    MakerLegOnGrid(db.wallets, m, maker, f.price, f.qty);
    var w1 := MakerLeg(db.wallets, m, maker, f.price, f.qty).value;
    TakerLegOnGrid(w1, m, t.row, f.price, f.qty);
    MakerRowOnGrid(m, maker, f.qty);
    FeeOnGrid(m, f.qty);
  }

  ghost predicate SameMarkets(before: map<OrderId, Order>, after: map<OrderId, Order>) {
    forall id :: id in before ==> id in after && after[id].market == before[id].market
  }

  ghost predicate MakersIn(orders: map<OrderId, Order>, symbol: Symbol, fills: seq<Fill>) {
    forall i :: 0 <= i < |fills| && fills[i].makerId in orders ==> orders[fills[i].makerId].market == symbol
  }

  lemma {:induction false} SettleFillsOnGrid(ms: Markets, db: Db, m: Market, t: Taker, fills: seq<Fill>, cmd: CommandId, idx: nat)
    requires DbOnGrid(ms, db) && GridMarket(m) && m.symbol in ms && ms[m.symbol] == m && OrderOnGrid(m, t.row)
    requires FillsOnGrid(m, fills) && MakersIn(db.orders, m.symbol, fills)
    requires SettleFills(db, m, t, fills, cmd, idx).Some?
    ensures DbOnGrid(ms, SettleFills(db, m, t, fills, cmd, idx).value)
    ensures SameMarkets(db.orders, SettleFills(db, m, t, fills, cmd, idx).value.orders)
    decreases |fills|
  {
    hide MakerLeg, TakerLeg, DbOnGrid, OrderOnGrid, GridMarket, FillOnGrid;
    if fills != [] {
      assert FillOnGrid(m, fills[0]);
      SettleFillOnGrid(ms, db, m, t, fills[0], MatchId(cmd, idx));
      var d := SettleFill(db, m, t, fills[0], MatchId(cmd, idx)).value;
      SettleFillsOnGrid(ms, d, m, t, fills[1..], cmd, idx + 1);
    }
  }

  lemma MatchMakersIn(orders: map<OrderId, Order>, now: map<OrderId, Order>, symbol: Symbol, b: Book, side: Side, limit: Option<int>, want: int)
    requires BookOk(orders, symbol, b) && SameMarkets(orders, now)
    ensures MakersIn(now, symbol, Match(b.Queue(side.Opposite()), side, limit, want).fills)
  {
    var q := b.Queue(side.Opposite());
    var fills := Match(q, side, limit, want).fills;
    forall i | 0 <= i < |fills| && fills[i].makerId in now ensures now[fills[i].makerId].market == symbol {
      var e := FillFromQueue(q, side, limit, want, i);
      assert EntryOk(orders, symbol, side.Opposite(), e);
    }
  }

  lemma TopLevelsOnGrid(m: Market, b: Book, side: Side)
    requires BookOnGrid(m, b)
    ensures forall i :: 0 <= i < |MarketLevels(b, side)| ==> LevelOnGrid(m, MarketLevels(b, side)[i])
  {
    LevelsOnGrid(m, b.Queue(side.Opposite()));
  }

  /** One synthetic order of a sweep. */
  lemma SweepStepOnGrid(orders: map<OrderId, Order>, m: Market, b: Book, orderId: OrderId, side: Side, levels: seq<Level>, k: nat, remaining: int)
    requires BookOk(orders, m.symbol, b) && BookOnGrid(m, b) && remaining > 0 && levels != []
    requires levels <= Levels(b.Queue(side.Opposite())) && !InBook(b, SweepId(orderId, k))
    requires LevelOnGrid(m, levels[0]) && Multiple(remaining, m.stepSize)
    ensures var take := Min(levels[0].qty, remaining);
            var a := Add(b, SweepId(orderId, k), side, levels[0].price, take);
            && a.Added? && a.leave == 0
            && BookOk(orders, m.symbol, a.book) && BookOnGrid(m, a.book) && FillsOnGrid(m, a.fills)
            && a.fills == Match(b.Queue(side.Opposite()), side, None, take).fills
            && Multiple(remaining - take, m.stepSize)
            && (remaining - take > 0 ==> levels[1..] <= Levels(a.book.Queue(side.Opposite())))
  {
    var take := Min(levels[0].qty, remaining);
    SweepStep(b, orderId, side, levels, k, remaining);
    WalkKeepsBookOk(orders, m.symbol, b, side, None, take);
    AddOnGrid(m, b, SweepId(orderId, k), side, levels[0].price, take);
    MultipleSum(remaining, take, m.stepSize);
  }

  lemma {:induction false} SweepOnGrid(orders: map<OrderId, Order>, m: Market, b: Book, orderId: OrderId, side: Side, levels: seq<Level>, k: nat, remaining: int)
    requires BookOk(orders, m.symbol, b) && BookOnGrid(m, b) && Multiple(remaining, m.stepSize)
    requires remaining > 0 ==> levels <= Levels(b.Queue(side.Opposite()))
    requires forall i :: 0 <= i < |levels| ==> LevelOnGrid(m, levels[i])
    ensures BookOnGrid(m, Sweep(b, orderId, side, levels, k, remaining).book)
    decreases |levels|
  {
    hide BookOk, BookOnGrid, LevelOnGrid, Multiple, Levels;
    if levels != [] && remaining > 0 && !InBook(b, SweepId(orderId, k)) {
      assert LevelOnGrid(m, levels[0]);
      SweepStepOnGrid(orders, m, b, orderId, side, levels, k, remaining);
      var take := Min(levels[0].qty, remaining);
      var a := Add(b, SweepId(orderId, k), side, levels[0].price, take);
      SweepOnGrid(orders, m, a.book, orderId, side, levels[1..], k + 1, remaining - take);
    }
  }

  lemma {:induction false} SweepLevelsOnGrid(ms: Markets, orders: map<OrderId, Order>, db: Db, b: Book, m: Market, t: Taker,
                                             levels: seq<Level>, k: nat, remaining: int, cmd: CommandId, idx: nat)
    requires DbOnGrid(ms, db) && GridMarket(m) && m.symbol in ms && ms[m.symbol] == m && OrderOnGrid(m, t.row)
    requires BookOk(orders, m.symbol, b) && BookOnGrid(m, b) && Multiple(remaining, m.stepSize) && SameMarkets(orders, db.orders)
    requires remaining > 0 ==> levels <= Levels(b.Queue(t.row.side.Opposite()))
    requires forall i :: 0 <= i < |levels| ==> LevelOnGrid(m, levels[i])
    ensures var r := SweepLevels(db, b, m, t, levels, k, remaining, cmd, idx);
            && BookOnGrid(m, r.book) && Multiple(r.remaining, m.stepSize)
            && (r.db.Some? ==> DbOnGrid(ms, r.db.value) && SameMarkets(orders, r.db.value.orders))
    decreases |levels|
  {
    hide BookOk, BookOnGrid, LevelOnGrid, Multiple, Levels, DbOnGrid, OrderOnGrid, SettleFills, GridMarket, Match;
    if levels != [] && remaining > 0 && !InBook(b, SweepId(t.id, k)) {
      assert LevelOnGrid(m, levels[0]);
      SweepStepOnGrid(orders, m, b, t.id, t.row.side, levels, k, remaining);
      var take := Min(levels[0].qty, remaining);
      var a := Add(b, SweepId(t.id, k), t.row.side, levels[0].price, take);
      MatchMakersIn(orders, db.orders, m.symbol, b, t.row.side, None, take);
      var d := SettleFills(db, m, t, a.fills, cmd, idx);
      if d.Some? {
        SettleFillsOnGrid(ms, db, m, t, a.fills, cmd, idx);
        SweepLevelsUnroll(db, b, m, t, levels, k, remaining, cmd, idx, a, d.value);
        SweepLevelsOnGrid(ms, orders, d.value, a.book, m, t, levels[1..], k + 1, remaining - take, cmd, idx + |a.fills|);
      }
    }
  }

  // ------------------------------------------------------------------- steps

  lemma BookOfOnGrid(ms: Markets, books: map<Symbol, Book>, symbol: Symbol)
    requires BooksOnGrid(ms, books) && symbol in ms
    ensures BookOnGrid(ms[symbol], BookOf(books, symbol))
  {
  }

  lemma AfterMatchOnGrid(m: Market, o: Order, leave: int, quantity: int)
    requires OrderOnGrid(m, o) && Multiple(leave, m.stepSize)
    ensures OrderOnGrid(m, AfterMatch(o, leave, quantity))
  {
  }

  lemma FinishMarketOnGrid(ms: Markets, db: Db, m: Market, t: Taker, remaining: int)
    requires DbOnGrid(ms, db) && m.symbol in ms && ms[m.symbol] == m && Multiple(remaining, m.stepSize)
    requires t.id in db.orders && db.orders[t.id].market == m.symbol
    requires FinishMarket(db, m, t, remaining).Some?
    ensures DbOnGrid(ms, FinishMarket(db, m, t, remaining).value)
  {
  }

  ghost predicate TargetOnGrid(ms: Markets, s: State, m: Market, t: Taker) {
    && Inv(ms, s) && OnTheGrid(ms, s) && GridMarket(m) && TakerOk(ms, m, s.db.orders, t)
  }

  lemma LimitOnGrid(ms: Markets, s: State, m: Market, t: Taker, cmd: CommandId)
    requires TargetOnGrid(ms, s, m, t)
    ensures OnTheGrid(ms, SettleLimit(s, m, t, m.symbol, cmd).state)
  {
    hide Add, SettleFills, RecordsOk, LocksMatch, WalletsOnGrid, SubmitEvents, NewTrades, FeesOnGrid, BookOnGrid, Multiple;
    var b := BookOf(s.books, m.symbol);
    BookOfOk(s.db.orders, s.books, m.symbol);
    BookOfOnGrid(ms, s.books, m.symbol);
    assert OrderOnGrid(m, t.row);
    if t.row.price.Some? {
      var price, qty := t.row.price.value, t.row.leaveQty;
      var a := Add(b, t.id, t.row.side, price, qty);
      if a.Added? {
        AddOnGrid(m, b, t.id, t.row.side, price, qty);
        AddFills(b, t.id, t.row.side, price, qty);
        MatchMakersIn(s.db.orders, s.db.orders, m.symbol, b, t.row.side, Some(price), qty);
        var d := SettleFills(s.db, m, t, a.fills, cmd, 0);
        if d.Some? {
          SettleFillsOnGrid(ms, s.db, m, t, a.fills, cmd, 0);
          AfterMatchOnGrid(m, d.value.orders[t.id], a.leave, t.row.quantity);
        }
      }
    }
  }

  lemma AddFills(b: Book, id: nat, side: Side, price: int, qty: int)
    requires Add(b, id, side, price, qty).Added?
    ensures Add(b, id, side, price, qty).fills == Match(b.Queue(side.Opposite()), side, Some(price), qty).fills
  {
  }

  lemma MarketOnGrid(ms: Markets, s: State, m: Market, t: Taker, cmd: CommandId)
    requires TargetOnGrid(ms, s, m, t)
    ensures OnTheGrid(ms, SettleMarket(s, m, t, m.symbol, cmd).state)
  {
    hide SweepLevels, FinishMarket, RecordsOk, LocksMatch, WalletsOnGrid, SubmitEvents, NewTrades, FeesOnGrid, BookOnGrid, Multiple, MarketLevels;
    var b := BookOf(s.books, m.symbol);
    BookOfOk(s.db.orders, s.books, m.symbol);
    BookOfOnGrid(ms, s.books, m.symbol);
    assert OrderOnGrid(m, t.row);
    TopLevelsOnGrid(m, b, t.row.side);
    LevelsListed(b, t.row.side);
    var levels := MarketLevels(b, t.row.side);
    SweepLevelsOnGrid(ms, s.db.orders, s.db, b, m, t, levels, 0, t.row.quantity, cmd, 0);
    var sw := SweepLevels(s.db, b, m, t, levels, 0, t.row.quantity, cmd, 0);
    if sw.db.Some? && FinishMarket(sw.db.value, m, t, sw.remaining).Some? {
      FinishMarketOnGrid(ms, sw.db.value, m, t, sw.remaining);
    }
  }

  lemma LevelsListed(b: Book, side: Side)
    ensures MarketLevels(b, side) <= Levels(b.Queue(side.Opposite()))
  {
    TopLevelsPrefix(b.Queue(side.Opposite()));
  }

  lemma CancelInBookOnGrid(orders: map<OrderId, Order>, m: Market, b: Book, id: OrderId)
    requires BookOk(orders, m.symbol, b) && BookOnGrid(m, b)
    ensures BookOnGrid(m, CancelInBook(b, id))
  {
    CancelKeepsBookOk(orders, m.symbol, b, id);
  }

  lemma ReleaseOnGrid(ws: Wallets, m: Market, o: Order)
    requires GridMarket(m) && WalletsOnGrid(ws) && OrderOnGrid(m, o) && Release(ws, m, o).Some?
    ensures WalletsOnGrid(Release(ws, m, o).value)
  {
    hide UpdateWallet;
    BaseOnGrid(o.leaveQty);
    if o.price.Some? {
      AmountsAt(m, o.price.value, o.leaveQty);
      var x := QuoteAmount(o.price.value, o.leaveQty);
      ModSum(0, x);
      UpdateOnGrid(ws, WalletKey(o.userId, m.quoteAsset), x, -x);
    }
    ModSum(0, BaseAmount(o.leaveQty));
    UpdateOnGrid(ws, WalletKey(o.userId, m.baseAsset), BaseAmount(o.leaveQty), -BaseAmount(o.leaveQty));
  }

  lemma CancelOnGrid(ms: Markets, s: State, c: Command)
    requires Inv(ms, s) && OnTheGrid(ms, s) && GridMarkets(ms) && c.CancelOrder?
    ensures OnTheGrid(ms, SettleCancel(ms, s, c).state)
  {
    hide CancelInBook, Release, RecordsOk, LocksMatch, WalletsOnGrid, BookOnGrid, GridMarket, CancelEvents;
    if c.orderId in s.db.orders {
      var o := s.db.orders[c.orderId];
      assert OrderOk(ms, o) && OrderOnGrid(ms[o.market], o);
      BookOfOk(s.db.orders, s.books, o.market);
      BookOfOnGrid(ms, s.books, o.market);
      CancelInBookOnGrid(s.db.orders, ms[o.market], BookOf(s.books, o.market), c.orderId);
      if Release(s.db.wallets, ms[o.market], o).Some? {
        ReleaseOnGrid(s.db.wallets, ms[o.market], o);
      }
    }
  }

  lemma DeliverOnGrid(ms: Markets, s: State, c: Command)
    requires Inv(ms, s) && OnTheGrid(ms, s) && GridMarkets(ms) && Published(s.db, c)
    ensures OnTheGrid(ms, Deliver(ms, s, c).state)
  {
    assert CommandOk(s.db.orders, c);
    if c.CancelOrder? {
      CancelOnGrid(ms, s, c);
    } else if SubmitTarget(ms, s.db, c).Some? {
      var t := SubmitTarget(ms, s.db, c).value;
      assert OrderOk(ms, t.row);
      LimitOnGrid(ms, s, ms[c.symbol], t, c.commandId);
      MarketOnGrid(ms, s, ms[c.symbol], t, c.commandId);
    }
  }

  lemma LockReservationOnGrid(ws: Wallets, user: UserId, m: Market, r: OrderRequest)
    requires GridMarket(m) && WalletsOnGrid(ws)
    requires Multiple(r.quantity, m.stepSize) && (r.orderType.LIMIT? ==> r.price.Some? && Multiple(r.price.value, m.tickSize))
    requires LockReservation(ws, user, m, r).Some?
    ensures WalletsOnGrid(LockReservation(ws, user, m, r).value)
  {
    hide UpdateWallet;
    BaseOnGrid(r.quantity);
    if r.side.Ask? {
      ModSum(0, BaseAmount(r.quantity));
      UpdateOnGrid(ws, WalletKey(user, m.baseAsset), -BaseAmount(r.quantity), BaseAmount(r.quantity));
    } else if r.orderType.LIMIT? {
      AmountsAt(m, r.price.value, r.quantity);
      var x := QuoteAmount(r.price.value, r.quantity);
      ModSum(0, x);
      UpdateOnGrid(ws, WalletKey(user, m.quoteAsset), -x, x);
    }
  }

  lemma OnGridIsMultiple(x: int, unit: int)
    requires OnGrid(x, unit)
    ensures Multiple(x, unit)
  {
    assert x == Times(x / unit, unit);
  }

  lemma PlaceOnGrid(ms: Markets, s: State, user: UserId, frozen: Option<bool>, r: OrderRequest, id: OrderId, cmd: CommandId)
    requires Inv(ms, s) && OnTheGrid(ms, s) && GridMarkets(ms)
    ensures OnTheGrid(ms, Step(ms, s, Place(user, frozen, r, id, cmd)))
  {
    hide LockReservation, RecordsOk, LocksMatch, BooksOk, WalletsOnGrid, GridMarket, CommandIdUsed, BookOnGrid, Multiple;
    if SubmitOrder(ms, s.db, user, frozen, r, id, cmd).Accepted? {
      var m := ms[r.market];
      OnGridIsMultiple(r.quantity, m.stepSize);
      if r.orderType.LIMIT? {
        OnGridIsMultiple(r.price.value, m.tickSize);
      }
      LockReservationOnGrid(s.db.wallets, user, m, r);
      assert OrderOnGrid(m, NewOrder(user, r, cmd));
    }
  }

  lemma FailedSubmitOnGrid(ms: Markets, s: State, c: Command, n: nat, t: Taker)
    requires BooksOk(s.db.orders, s.books) && BooksOnGrid(ms, s.books) && c.Submit? && c.symbol in ms && ms[c.symbol].symbol == c.symbol
    requires SubmitTarget(ms, s.db, c) == Some(t) && OrderOnGrid(ms[c.symbol], t.row)
    ensures BooksOnGrid(ms, BooksAfterFailure(ms, s, c, n))
  {
    hide Add, Sweep, BookOk, BookOnGrid, MarketLevels, Multiple, Levels;
    var m := ms[c.symbol];
    var b := BookOf(s.books, c.symbol);
    BookOfOk(s.db.orders, s.books, c.symbol);
    BookOfOnGrid(ms, s.books, c.symbol);
    if t.row.orderType.LIMIT? {
      if t.row.price.Some? && Add(b, t.id, t.row.side, t.row.price.value, t.row.leaveQty).Added? {
        AddOnGrid(m, b, t.id, t.row.side, t.row.price.value, t.row.leaveQty);
      }
    } else {
      TopLevelsOnGrid(m, b, t.row.side);
      LevelsListed(b, t.row.side);
      var levels := MarketLevels(b, t.row.side);
      SweepOnGrid(s.db.orders, m, b, t.id, t.row.side, levels[..if n <= |levels| then n else |levels|], 0, t.row.quantity);
    }
  }

  lemma FailOnGrid(ms: Markets, s: State, c: Command, n: nat)
    requires Inv(ms, s) && OnTheGrid(ms, s)
    ensures OnTheGrid(ms, Step(ms, s, Fail(c, n)))
  {
    hide LocksMatch, BooksOk, BookOnGrid, OrderOnGrid, WalletsOnGrid, TradesOk, FillsRecorded, MatchIdsUnique, Numbered, Sweep, CancelInBook;
    if Published(s.db, c) {
      assert CommandOk(s.db.orders, c);
      var o := s.db.orders[c.orderId];
      assert OrderOk(ms, o) && OrderOnGrid(ms[o.market], o);
      if c.CancelOrder? {
        BookOfOk(s.db.orders, s.books, c.symbol);
        BookOfOnGrid(ms, s.books, c.symbol);
        CancelInBookOnGrid(s.db.orders, ms[c.symbol], BookOf(s.books, c.symbol), c.orderId);
      } else if SubmitTarget(ms, s.db, c).Some? {
        FailedSubmitOnGrid(ms, s, c, n, SubmitTarget(ms, s.db, c).value);
      }
    }
  }

  lemma {:induction false} ReplayOnGrid(ms: Markets, orders: map<OrderId, Order>, ids: seq<OrderId>)
    requires OrdersOk(ms, orders) && OrdersOnGrid(ms, orders)
    ensures BooksOnGrid(ms, Replay(orders, ids))
    decreases |ids|
  {
    hide Add, BookOnGrid, Multiple;
    if ids != [] {
      ReplayOnGrid(ms, orders, ids[..|ids| - 1]);
      var books := Replay(orders, ids[..|ids| - 1]);
      var id := ids[|ids| - 1];
      if id in orders && orders[id].price.Some? {
        var o := orders[id];
        assert OrderOk(ms, o) && OrderOnGrid(ms[o.market], o);
        BookOfOnGrid(ms, books, o.market);
        var b := BookOf(books, o.market);
        if Add(b, id, o.side, o.price.value, o.leaveQty).Added? {
          AddOnGrid(ms[o.market], b, id, o.side, o.price.value, o.leaveQty);
        }
      }
    }
  }

  lemma StepOnGrid(ms: Markets, s: State, a: Action)
    requires Inv(ms, s) && OnTheGrid(ms, s) && GridMarkets(ms)
    ensures OnTheGrid(ms, Step(ms, s, a))
  {
    match a {
      case Place(user, frozen, r, id, cmd) => PlaceOnGrid(ms, s, user, frozen, r, id, cmd);
      case AskCancel(user, id, cmd) =>
      case Process(c) => if Published(s.db, c) { DeliverOnGrid(ms, s, c); }
      case Fail(c, n) => FailOnGrid(ms, s, c, n);
      case Restart => ReplayOnGrid(ms, s.db.orders, OpenOrders(s.db.orders, s.db.nextOrderId));
    }
  }

  lemma {:induction false} RunOnGrid(ms: Markets, s: State, actions: seq<Action>)
    requires Inv(ms, s) && OnTheGrid(ms, s) && GridMarkets(ms)
    ensures OnTheGrid(ms, Run(ms, s, actions))
    decreases |actions|
  {
    if actions != [] {
      StepOnGrid(ms, s, actions[0]);
      StepKeepsAll(ms, s, actions[0]);
      RunOnGrid(ms, Step(ms, s, actions[0]), actions[1..]);
    }
  }

  /**
   Starting from wallets with twelve decimals, every wallet and fee of every
   reachable state has twelve decimals, aborted commands and restarts included.
   Prices and quantities are whole units by their type.
   */
  lemma TwelveDecimalsLoseNothing(ms: Markets, s: State, actions: seq<Action>)
    requires Initial(ms, s) && GridMarkets(ms) && WalletsOnGrid(s.db.wallets)
    ensures WalletsOnGrid(Run(ms, s, actions).db.wallets)
    ensures FeesOnGrid(Run(ms, s, actions).db.trades)
  {
    InitialInv(ms, s);
    RunOnGrid(ms, s, actions);
  }

  // ---------------------------------------------------------- seeded markets

  const BTC_KRW := Market("BTC-KRW", "BTC", "KRW", 1_000_000_000_000_000, 10_000, 5_000_000_000_000_000, 10, 20, true)

  const ETH_KRW := Market("ETH-KRW", "ETH", "KRW", 100_000_000_000_000, 10_000, 5_000_000_000_000_000, 10, 20, true)

  const BTC_USDT := Market("BTC-USDT", "BTC", "USDT", 10_000_000_000, 10_000, 1_000_000_000_000, 10, 20, true)

  /** The KRW markets are on the grid, BTC-USDT is not. */
  lemma SeededMarkets()
    ensures GridMarket(BTC_KRW) && GridMarket(ETH_KRW) && !GridMarket(BTC_USDT)
  {
  }

  // A sale of 1.00000001 BTC at 100.01 USDT.
  const ASK_REQUEST := OrderRequest("BTC-USDT", Ask, LIMIT, Some(100_010_000_000_000), 1_000_000_010_000)
  const BID_REQUEST := OrderRequest("BTC-USDT", Bid, LIMIT, Some(100_010_000_000_000), 1_000_000_010_000)
  const ASK_ORDER := Order("alice", "BTC-USDT", Ask, LIMIT, Some(100_010_000_000_000), 1_000_000_010_000, 1_000_000_010_000, 0, OPEN, Some("a"))
  const BID_ORDER := Order("bob", "BTC-USDT", Bid, LIMIT, Some(100_010_000_000_000), 1_000_000_010_000, 1_000_000_010_000, 0, OPEN, Some("b"))
  const RESTING_ASK := Entry(1, 100_010_000_000_000, 1_000_000_010_000)

  const USDT_MARKETS: Markets := map["BTC-USDT" := BTC_USDT]

  /** Two coins for alice, 50 000 USDT for bob. */
  function FundedWallets(): Wallets {
    map[WalletKey("alice", "BTC") := Wallet(2 * 10_000_000_000_000_000_000_000_000_000, 0),
        WalletKey("bob", "USDT") := Wallet(50_000 * 10_000_000_000_000_000_000_000_000_000, 0)]
  }

  function Funded(): State {
    State(Db(FundedWallets(), map[], [], [], 1), map[])
  }

  function OffGridRun(): seq<Action> {
    [Place("alice", Some(false), ASK_REQUEST, 1, "a"), Process(Submit("a", 1, "BTC-USDT")),
     Place("bob", Some(false), BID_REQUEST, 2, "b"), Process(Submit("b", 2, "BTC-USDT"))]
  }

  /** alice's coins are locked; bob's wallet is `bob`; nobody holds the other asset. */
  predicate Asked(ws: Wallets, bob: Wallet) {
    && WalletKey("alice", "BTC") in ws && ws[WalletKey("alice", "BTC")].locked == BaseAmount(1_000_000_010_000)
    && ws[WalletKey("alice", "BTC")].balance >= 0
    && WalletKey("alice", "USDT") !in ws && WalletKey("bob", "BTC") !in ws
    && WalletKey("bob", "USDT") in ws && ws[WalletKey("bob", "USDT")] == bob
  }

  /** alice's ask has been placed and rests. */
  lemma AskRests() returns (s: State)
    ensures s == Step(USDT_MARKETS, Step(USDT_MARKETS, Funded(), OffGridRun()[0]), OffGridRun()[1])
    ensures s.db.orders == map[1 := ASK_ORDER] && s.books == map["BTC-USDT" := Book([], [RESTING_ASK])] && s.db.trades == []
    ensures Asked(s.db.wallets, FundedWallets()[WalletKey("bob", "USDT")])
  {
    var placed := Step(USDT_MARKETS, Funded(), OffGridRun()[0]);
    assert placed.db.orders == map[1 := ASK_ORDER];
    assert placed.db.outbox == [CommandRow(Submit("a", 1, "BTC-USDT"))];
    assert Published(placed.db, Submit("a", 1, "BTC-USDT"));
    s := Step(USDT_MARKETS, placed, OffGridRun()[1]);
    var b := Add(EMPTY_BOOK, 1, Ask, 100_010_000_000_000, 1_000_000_010_000);
    assert b == Added(Book([], [RESTING_ASK]), [], 1_000_000_010_000);
  }

  /** bob's bid has been placed. */
  lemma BidPlaced(s: State) returns (placed: State, bob: Wallet)
    requires s == Step(USDT_MARKETS, Step(USDT_MARKETS, Funded(), OffGridRun()[0]), OffGridRun()[1])
    ensures placed == Step(USDT_MARKETS, s, OffGridRun()[2])
    ensures placed.db.orders == map[1 := ASK_ORDER, 2 := BID_ORDER] && placed.books == map["BTC-USDT" := Book([], [RESTING_ASK])]
    ensures placed.db.trades == [] && Published(placed.db, Submit("b", 2, "BTC-USDT"))
    ensures Asked(placed.db.wallets, bob) && bob.balance >= 0 && bob.locked == QuoteAmount(100_010_000_000_000, 1_000_000_010_000)
  {
    var _ := AskRests();
    placed := Step(USDT_MARKETS, s, OffGridRun()[2]);
    assert Validate(Some(false), USDT_MARKETS, BID_REQUEST).None?;
    assert !CommandIdUsed(s.db.orders, "b");
    bob := placed.db.wallets[WalletKey("bob", "USDT")];
    assert placed.db.outbox[|s.db.outbox|] == CommandRow(Submit("b", 2, "BTC-USDT"));
  }

  /** Settling the trade credits alice with a fraction of 10^-12 USDT. */
  lemma BidSettles(db: Db, bob: Wallet)
    requires db.orders == map[1 := ASK_ORDER, 2 := BID_ORDER] && db.trades == []
    requires Asked(db.wallets, bob) && bob.balance >= 0 && bob.locked == QuoteAmount(100_010_000_000_000, 1_000_000_010_000)
    ensures var d := SettleFills(db, BTC_USDT, Taker(2, BID_ORDER), [Fill(1, 100_010_000_000_000, 1_000_000_010_000)], "b", 0);
            d.Some? && 2 in d.value.orders && !WalletsOnGrid(d.value.wallets)
  {
    var f := Fill(1, 100_010_000_000_000, 1_000_000_010_000);
    var alice := WalletKey("alice", "USDT");
    var w1 := MakerLeg(db.wallets, BTC_USDT, ASK_ORDER, f.price, f.qty).value;
    assert w1[alice] == Wallet(NetQuote(f.price, f.qty, 10), 0);
    var w2 := TakerLeg(w1, BTC_USDT, BID_ORDER, f.price, f.qty).value;
    assert w2[alice] == w1[alice] && w2[alice].balance % GRID != 0;
    assert [f][1..] == [];
    assert SettleFill(db, BTC_USDT, Taker(2, BID_ORDER), f, MatchId("b", 0)).value.wallets == w2;
  }

  /** bob takes the ask. */
  lemma BidTrades(s: State)
    requires s == Step(USDT_MARKETS, Step(USDT_MARKETS, Funded(), OffGridRun()[0]), OffGridRun()[1])
    ensures !WalletsOnGrid(Step(USDT_MARKETS, Step(USDT_MARKETS, s, OffGridRun()[2]), OffGridRun()[3]).db.wallets)
  {
    hide SettleFills, WalletsOnGrid, Asked, SubmitEvents;
    var placed, bob := BidPlaced(s);
    BidSettles(placed.db, bob);
    assert Add(placed.books["BTC-USDT"], 2, Bid, 100_010_000_000_000, 1_000_000_010_000)
        == Added(EMPTY_BOOK, [Fill(1, 100_010_000_000_000, 1_000_000_010_000)], 0) by {
      assert [RESTING_ASK][1..] == [];
    }
  }

  /** On BTC-USDT the promise fails: from twelve-decimal wallets a single trade leads off the grid. */
  lemma UsdtLeavesTheGrid()
    ensures Initial(USDT_MARKETS, Funded()) && WalletsOnGrid(Funded().db.wallets)
    ensures !WalletsOnGrid(Run(USDT_MARKETS, Funded(), OffGridRun()).db.wallets)
  {
    hide Step;
    var s := AskRests();
    BidTrades(s);
    RunFour(USDT_MARKETS, Funded(), OffGridRun());
  }

  lemma RunFour(ms: Markets, s: State, actions: seq<Action>)
    requires |actions| == 4
    ensures Run(ms, s, actions) == Step(ms, Step(ms, Step(ms, Step(ms, s, actions[0]), actions[1]), actions[2]), actions[3])
  {
    hide Step;
    var s1 := Step(ms, s, actions[0]);
    var s2 := Step(ms, s1, actions[1]);
    var s3 := Step(ms, s2, actions[2]);
    assert Run(ms, s3, actions[3..]) == Run(ms, Step(ms, s3, actions[3]), []) by {
      assert actions[3..][1..] == [];
    }
    assert Run(ms, s2, actions[2..]) == Run(ms, s3, actions[3..]) by {
      assert actions[2..][1..] == actions[3..];
    }
    assert Run(ms, s1, actions[1..]) == Run(ms, s2, actions[2..]) by {
      assert actions[1..][1..] == actions[2..];
    }
  }
}
