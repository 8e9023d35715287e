/**
 The other half of grid exactness: a market off the grid does lead off it. Two
 users who trade one step against each other, in one order or the other, end
 with an amount that twelve decimals cannot hold.
 */
module OffGrid {
  import opened Wrappers
  import opened OrderBook
  import opened Ledger
  import opened LedgerFacts
  import opened SettleFacts
  import opened Settlement
  import opened Invariant
  import opened SubmitProof
  import opened Exchange
  import opened Commits
  import opened Grid
  import Lifecycle

  function UserOf(side: Side): UserId {
    if side.Ask? then "alice" else "bob"
  }

  function Request(m: Market, side: Side, price: int, qty: int): OrderRequest {
    OrderRequest(m.symbol, side, LIMIT, Some(price), qty)
  }

  function OrderOf(m: Market, side: Side, price: int, qty: int, cmd: CommandId): Order {
    NewOrder(UserOf(side), Request(m, side, price, qty), cmd)
  }

  /** The wallet an order reserves from, and how much. */
  function KeyOf(m: Market, side: Side): WalletKey {
    WalletKey(UserOf(side), if side.Ask? then m.baseAsset else m.quoteAsset)
  }

  function AmountOf(side: Side, price: int, qty: int): int {
    if side.Ask? then BaseAmount(qty) else QuoteAmount(price, qty)
  }

  /** The wallet its trade is credited to, and how much. */
  function CreditKey(m: Market, side: Side): WalletKey {
    WalletKey(UserOf(side), if side.Ask? then m.quoteAsset else m.baseAsset)
  }

  function CreditOf(side: Side, price: int, qty: int, bp: int): int {
    if side.Ask? then NetQuote(price, qty, bp) else NetBase(qty, bp)
  }

  /** One side's order is placed and settled, then the other side's. */
  function Cross(m: Market, first: Side, price: int, qty: int): seq<Action> {
    [Place(UserOf(first), Some(false), Request(m, first, price, qty), 1, "a"), Process(Submit("a", 1, m.symbol)),
     Place(UserOf(first.Opposite()), Some(false), Request(m, first.Opposite(), price, qty), 2, "b"), Process(Submit("b", 2, m.symbol))]
  }

  /** The API accepts this price and quantity on this market. */
  ghost predicate CanTrade(ms: Markets, m: Market, price: int, qty: int) {
    && MarketsOk(ms) && m.symbol in ms && ms[m.symbol] == m && FeesSane(m) && price > 0 && qty > 0
    && Validate(Some(false), ms, Request(m, Bid, price, qty)).None?
  }

  ghost predicate Affords(ws: Wallets, m: Market, side: Side, price: int, qty: int) {
    KeyOf(m, side) in ws && ws[KeyOf(m, side)].balance >= AmountOf(side, price, qty)
  }

  // ------------------------------------------------------------------ placing

  lemma ValidEitherSide(ms: Markets, m: Market, side: Side, price: int, qty: int)
    requires CanTrade(ms, m, price, qty)
    ensures Validate(Some(false), ms, Request(m, side, price, qty)).None?
  {
  }

  /** The reservation moves, the row is there and its SUBMIT is published. */
  lemma PlaceTakes(ms: Markets, s: State, m: Market, side: Side, price: int, qty: int, id: OrderId, cmd: CommandId) returns (s1: State)
    requires Inv(ms, s) && CanTrade(ms, m, price, qty) && Affords(s.db.wallets, m, side, price, qty)
    requires id !in s.db.orders && !CommandIdUsed(s.db.orders, cmd)
    ensures s1 == Step(ms, s, Place(UserOf(side), Some(false), Request(m, side, price, qty), id, cmd))
    ensures Inv(ms, s1) && s1.books == s.books && s1.db.trades == s.db.trades
    ensures s1.db.orders == s.db.orders[id := OrderOf(m, side, price, qty, cmd)] && Published(s1.db, Submit(cmd, id, m.symbol))
    ensures var w := s.db.wallets[KeyOf(m, side)];
            s1.db.wallets == s.db.wallets[KeyOf(m, side) := Wallet(w.balance - AmountOf(side, price, qty), w.locked + AmountOf(side, price, qty))]
  {
    hide Validate, CommandIdUsed, Inv, QuoteAmount, BaseAmount;
    ValidEitherSide(ms, m, side, price, qty);
    LockGoes(ms, s, m, side, price, qty);
    var a := Place(UserOf(side), Some(false), Request(m, side, price, qty), id, cmd);
    StepKeepsAll(ms, s, a);
    s1 := Step(ms, s, a);
    assert s1.db.outbox[|s.db.outbox|] == CommandRow(Submit(cmd, id, m.symbol));
  }

  lemma LockGoes(ms: Markets, s: State, m: Market, side: Side, price: int, qty: int)
    requires Inv(ms, s) && price > 0 && qty > 0 && Affords(s.db.wallets, m, side, price, qty)
    ensures var w := s.db.wallets[KeyOf(m, side)];
            LockReservation(s.db.wallets, UserOf(side), m, Request(m, side, price, qty))
            == Some(s.db.wallets[KeyOf(m, side) := Wallet(w.balance - AmountOf(side, price, qty), w.locked + AmountOf(side, price, qty))])
  {
    hide RecordsOk, BooksOk, LocksMatch;
    AmountsPositive(side, price, qty);
  }

  lemma AmountsPositive(side: Side, price: int, qty: int)
    requires price > 0 && qty > 0
    ensures AmountOf(side, price, qty) > 0
  {
    ProductAtLeast(price, qty);
  }

  // ----------------------------------------------------------------- settling

  ghost predicate Placed(ms: Markets, s: State, m: Market, side: Side, price: int, qty: int, id: OrderId, cmd: CommandId) {
    && Inv(ms, s) && CanTrade(ms, m, price, qty)
    && id in s.db.orders && s.db.orders[id] == OrderOf(m, side, price, qty, cmd) && Published(s.db, Submit(cmd, id, m.symbol))
    && !InBook(BookOf(s.books, m.symbol), id)
  }

  /** An order that was just placed settles, and its settlement is that of what the book trades. */
  lemma PlacedSettles(ms: Markets, s: State, m: Market, side: Side, price: int, qty: int, id: OrderId, cmd: CommandId) returns (s1: State)
    requires Placed(ms, s, m, side, price, qty, id, cmd)
    ensures s1 == Step(ms, s, Process(Submit(cmd, id, m.symbol))) && Inv(ms, s1)
    ensures var a := Add(BookOf(s.books, m.symbol), id, side, price, qty);
            var d := SettleFills(s.db, m, Taker(id, s.db.orders[id]), a.fills, cmd, 0);
            && a.Added? && d.Some? && s1.books == s.books[m.symbol := a.book]
            && s1.db.wallets == d.value.wallets && s1.db.trades == d.value.trades
            && s1.db.orders == d.value.orders[id := AfterMatch(s.db.orders[id], a.leave, qty)]
  {
    hide Inv, SettleLimit, Add, SettleFills, InBook, Validate, GoodFills;
    var t := Taker(id, s.db.orders[id]);
    RowOk(ms, s, id);
    OpenLimitCommits(ms, s, m, t, cmd);
    CommittedLimitSettled(ms, s, m, t, cmd);
    LimitCommitted(ms, s, m, t, cmd, Add(BookOf(s.books, m.symbol), id, side, price, qty));
    StepKeepsAll(ms, s, Process(Submit(cmd, id, m.symbol)));
    s1 := Step(ms, s, Process(Submit(cmd, id, m.symbol)));
    assert s1 == SettleLimit(s, m, t, m.symbol, cmd).state;
  }

  lemma RowOk(ms: Markets, s: State, id: OrderId)
    requires Inv(ms, s) && id in s.db.orders
    ensures OrderOk(ms, s.db.orders[id])
  {
  }

  lemma FirstRests(id: OrderId, side: Side, price: int, qty: int)
    requires qty > 0
    ensures Add(EMPTY_BOOK, id, side, price, qty) == Added(EMPTY_BOOK.With(side, [Entry(id, price, qty)]), [], qty)
  {
  }

  lemma SecondTrades(first: Side, price: int, qty: int)
    requires qty > 0
    ensures Add(EMPTY_BOOK.With(first, [Entry(1, price, qty)]), 2, first.Opposite(), price, qty) == Added(EMPTY_BOOK, [Fill(1, price, qty)], 0)
  {
    var q := [Entry(1, price, qty)];
    assert q[1..] == [] && [Fill(1, price, qty)] + [] == [Fill(1, price, qty)];
    assert Match(q[1..], first.Opposite(), Some(price), 0) == Matched([], [], 0);
    assert Match(q, first.Opposite(), Some(price), qty) == Matched([Fill(1, price, qty)], [], 0);
    assert !InBook(EMPTY_BOOK.With(first, q), 2);
  }

  /** One trade, as the two legs. */
  lemma OneFill(db: Db, m: Market, t: Taker, f: Fill, cmd: CommandId)
    requires SettleFills(db, m, t, [f], cmd, 0).Some?
    ensures f.makerId in db.orders && MakerLeg(db.wallets, m, db.orders[f.makerId], f.price, f.qty).Some?
    ensures var w1 := MakerLeg(db.wallets, m, db.orders[f.makerId], f.price, f.qty).value;
            TakerLeg(w1, m, t.row, f.price, f.qty) == Some(SettleFills(db, m, t, [f], cmd, 0).value.wallets)
  {
    hide MakerLeg, TakerLeg, MatchIdUsed;
    assert [f][1..] == [];
  }

  /** A wallet on the grid that is credited is on the grid again only if the credit is. */
  lemma CreditShows(x: int, credit: int)
    requires x % GRID == 0 && (x + credit) % GRID == 0
    ensures credit % GRID == 0
  {
    ModSum(x + credit, x);
  }

  /** What the two legs leave in the two credited wallets. */
  lemma LegsCredit(ws: Wallets, m: Market, first: Side, price: int, qty: int)
    requires var w1 := MakerLeg(ws, m, OrderOf(m, first, price, qty, "a"), price, qty);
             w1.Some? && TakerLeg(w1.value, m, OrderOf(m, first.Opposite(), price, qty, "b"), price, qty).Some?
    ensures var w1 := MakerLeg(ws, m, OrderOf(m, first, price, qty, "a"), price, qty).value;
            var w2 := TakerLeg(w1, m, OrderOf(m, first.Opposite(), price, qty, "b"), price, qty).value;
            var maker, taker := CreditKey(m, first), CreditKey(m, first.Opposite());
            && maker in w2 && taker in w2
            && w2[maker].balance == (if maker in ws then ws[maker].balance else 0) + CreditOf(first, price, qty, m.makerFeeBp)
            && w2[taker].balance == (if taker in ws then ws[taker].balance else 0) + CreditOf(first.Opposite(), price, qty, m.takerFeeBp)
  {
    hide QuoteAmount, BaseAmount, NetQuote, NetBase;
    assert "alice"[0] != "bob"[0];
  }

  // --------------------------------------------------------------------- runs

  ghost predicate Fits(s: State) {
    WalletsOnGrid(s.db.wallets)
  }

  lemma PlaceShows(ms: Markets, s: State, m: Market, price: int, qty: int, id: OrderId, cmd: CommandId)
    requires Inv(ms, s) && CanTrade(ms, m, price, qty) && Affords(s.db.wallets, m, Bid, price, qty)
    requires id !in s.db.orders && !CommandIdUsed(s.db.orders, cmd)
    requires Fits(s) && Fits(Step(ms, s, Place(UserOf(Bid), Some(false), Request(m, Bid, price, qty), id, cmd)))
    ensures QuoteAmount(price, qty) % GRID == 0
  {
    hide Inv, CanTrade, CommandIdUsed, QuoteAmount, Step;
    var s1 := PlaceTakes(ms, s, m, Bid, price, qty, id, cmd);
    assert s1.db.wallets[KeyOf(m, Bid)].locked == s.db.wallets[KeyOf(m, Bid)].locked + QuoteAmount(price, qty);
    CreditShows(s.db.wallets[KeyOf(m, Bid)].locked, QuoteAmount(price, qty));
  }

  lemma FirstPlaced(ms: Markets, s: State, m: Market, first: Side, price: int, qty: int) returns (placed: State)
    requires Initial(ms, s) && CanTrade(ms, m, price, qty) && Affords(s.db.wallets, m, first, price, qty)
    ensures placed == Step(ms, s, Place(UserOf(first), Some(false), Request(m, first, price, qty), 1, "a"))
    ensures Placed(ms, placed, m, first, price, qty, 1, "a")
    ensures placed.db.orders == map[1 := OrderOf(m, first, price, qty, "a")] && placed.db.trades == [] && placed.books == map[]
    ensures forall k :: k in s.db.wallets && k != KeyOf(m, first) ==> k in placed.db.wallets && placed.db.wallets[k] == s.db.wallets[k]
  {
    InitialInv(ms, s);
    NoneUsed("a");
    assert !InBook(EMPTY_BOOK, 1);
    hide Inv, CanTrade, Step, CommandIdUsed, InBook, OrderOf, AmountOf, Request, WalletsOk, MarketsOk;
    placed := PlaceTakes(ms, s, m, first, price, qty, 1, "a");
  }

  /** The first order is placed and rests. */
  lemma FirstHalf(ms: Markets, s: State, m: Market, first: Side, price: int, qty: int) returns (placed: State, rests: State)
    requires Initial(ms, s) && CanTrade(ms, m, price, qty) && Affords(s.db.wallets, m, first, price, qty)
    ensures placed == Step(ms, s, Cross(m, first, price, qty)[0]) && rests == Step(ms, placed, Cross(m, first, price, qty)[1])
    ensures Inv(ms, rests) && rests.db.orders == map[1 := OrderOf(m, first, price, qty, "a")] && rests.db.trades == []
    ensures BookOf(rests.books, m.symbol) == EMPTY_BOOK.With(first, [Entry(1, price, qty)])
    ensures forall k :: k in s.db.wallets && k != KeyOf(m, first) ==> k in rests.db.wallets && rests.db.wallets[k] == s.db.wallets[k]
  {
    TradePositive(ms, m, price, qty);
    hide Inv, CanTrade, Step, Placed, OrderOf, Request, Initial, Affords, KeyOf;
    placed := FirstPlaced(ms, s, m, first, price, qty);
    rests := AloneRests(ms, placed, m, first, price, qty);
  }

  lemma AloneRests(ms: Markets, s: State, m: Market, first: Side, price: int, qty: int) returns (s1: State)
    requires Placed(ms, s, m, first, price, qty, 1, "a") && qty > 0 && BookOf(s.books, m.symbol) == EMPTY_BOOK
    requires s.db.orders == map[1 := OrderOf(m, first, price, qty, "a")]
    ensures s1 == Step(ms, s, Process(Submit("a", 1, m.symbol))) && Inv(ms, s1)
    ensures s1.db.wallets == s.db.wallets && s1.db.orders == s.db.orders && s1.db.trades == s.db.trades
    ensures BookOf(s1.books, m.symbol) == EMPTY_BOOK.With(first, [Entry(1, price, qty)])
  {
    hide Placed, Inv, Step, Add, SettleFills;
    FirstRests(1, first, price, qty);
    s1 := PlacedSettles(ms, s, m, first, price, qty, 1, "a");
    var o := OrderOf(m, first, price, qty, "a");
    NothingToSettle(s.db, m, Taker(1, o), "a");
    assert AfterMatch(o, qty, qty) == o;
  }

  lemma NothingToSettle(db: Db, m: Market, t: Taker, cmd: CommandId)
    ensures SettleFills(db, m, t, [], cmd, 0) == Some(db)
  {
  }

  lemma TradePositive(ms: Markets, m: Market, price: int, qty: int)
    requires CanTrade(ms, m, price, qty)
    ensures price > 0 && qty > 0
  {
  }

  lemma NoneUsed(cmd: CommandId)
    ensures !CommandIdUsed(map[], cmd)
  {
  }

  /** The second order is placed and takes the first. */
  lemma SecondHalf(ms: Markets, s: State, m: Market, first: Side, price: int, qty: int) returns (placed: State, traded: State)
    requires Inv(ms, s) && CanTrade(ms, m, price, qty) && Affords(s.db.wallets, m, first.Opposite(), price, qty)
    requires s.db.orders == map[1 := OrderOf(m, first, price, qty, "a")]
    requires BookOf(s.books, m.symbol) == EMPTY_BOOK.With(first, [Entry(1, price, qty)])
    ensures placed == Step(ms, s, Cross(m, first, price, qty)[2]) && traded == Step(ms, placed, Cross(m, first, price, qty)[3])
    ensures Fits(placed) && Fits(traded) ==>
              && CreditOf(first, price, qty, m.makerFeeBp) % GRID == 0
              && CreditOf(first.Opposite(), price, qty, m.takerFeeBp) % GRID == 0
  {
    hide Inv, CanTrade, Step, CommandIdUsed, Add, SettleFills, MakerLeg, TakerLeg, CreditOf;
    var second := first.Opposite();
    assert !CommandIdUsed(s.db.orders, "b") by { OneUsed(OrderOf(m, first, price, qty, "a")); }
    placed := PlaceTakes(ms, s, m, second, price, qty, 2, "b");
    TradePositive(ms, m, price, qty);
    SecondTrades(first, price, qty);
    assert !InBook(BookOf(placed.books, m.symbol), 2);
    traded := PlacedSettles(ms, placed, m, second, price, qty, 2, "b");
    var t := Taker(2, placed.db.orders[2]);
    OneFill(placed.db, m, t, Fill(1, price, qty), "b");
    LegsCredit(placed.db.wallets, m, first, price, qty);
    if Fits(placed) && Fits(traded) {
      CreditFits(placed.db.wallets, traded.db.wallets, CreditKey(m, first), CreditOf(first, price, qty, m.makerFeeBp));
      CreditFits(placed.db.wallets, traded.db.wallets, CreditKey(m, second), CreditOf(second, price, qty, m.takerFeeBp));
    }
  }

  lemma OneUsed(o: Order)
    requires o.commandId == Some("a")
    ensures !CommandIdUsed(map[1 := o], "b")
  {
    assert "a"[0] != "b"[0];
  }

  lemma CreditFits(before: Wallets, after: Wallets, k: WalletKey, credit: int)
    requires WalletsOnGrid(before) && WalletsOnGrid(after) && k in after
    requires after[k].balance == (if k in before then before[k].balance else 0) + credit
    ensures credit % GRID == 0
  {
    CreditShows(if k in before then before[k].balance else 0, credit);
  }

  /** Every state of every run of these markets from wallets with twelve decimals has twelve decimals. */
  ghost predicate NeverLeaves(ms: Markets) {
    forall s, actions :: Initial(ms, s) && WalletsOnGrid(s.db.wallets) ==>
      WalletsOnGrid(Run(ms, s, actions).db.wallets) && FeesOnGrid(Run(ms, s, actions).db.trades)
  }

  /** Enough of both assets for one trade, in whole units. */
  function RichWallets(m: Market, price: int, qty: int): Wallets {
    var plenty := Times(BaseAmount(qty) + QuoteAmount(price, qty), GRID);
    map[KeyOf(m, Ask) := Wallet(plenty, 0), KeyOf(m, Bid) := Wallet(plenty, 0)]
  }

  lemma RichEnough(m: Market, price: int, qty: int)
    requires price > 0 && qty > 0
    ensures var ws := RichWallets(m, price, qty);
            Affords(ws, m, Ask, price, qty) && Affords(ws, m, Bid, price, qty) && WalletsOnGrid(ws) && WalletsOk(ws)
  {
    hide BaseAmount, QuoteAmount;
    var sum := BaseAmount(qty) + QuoteAmount(price, qty);
    AmountsPositive(Ask, price, qty);
    AmountsPositive(Bid, price, qty);
    TimesGrid(sum);
    ProductAtLeast(sum, GRID);
  }

  /** Trading in this order shows the reservation and both credits to be on the grid. */
  lemma CrossShows(ms: Markets, m: Market, first: Side, price: int, qty: int)
    requires NeverLeaves(ms) && CanTrade(ms, m, price, qty)
    ensures QuoteAmount(price, qty) % GRID == 0
    ensures CreditOf(first, price, qty, m.makerFeeBp) % GRID == 0
    ensures CreditOf(first.Opposite(), price, qty, m.takerFeeBp) % GRID == 0
  {
    hide QuoteAmount, Inv, Validate, WalletsOnGrid, CreditOf;
    var s := State(Db(RichWallets(m, price, qty), map[], [], [], 1), map[]);
    RichEnough(m, price, qty);
    var run := Cross(m, first, price, qty);
    assert Initial(ms, s);
    InitialInv(ms, s);
    PrefixesFit(ms, s, run);
    NoneUsed("a");
    var placed, rests := FirstHalf(ms, s, m, first, price, qty);
    assert Affords(rests.db.wallets, m, first.Opposite(), price, qty) by { assert "alice"[0] != "bob"[0]; }
    var second, traded := SecondHalf(ms, rests, m, first, price, qty);
    if first.Bid? {
      PlaceShows(ms, s, m, price, qty, 1, "a");
    } else {
      OneUsed(OrderOf(m, first, price, qty, "a"));
      PlaceShows(ms, rests, m, price, qty, 2, "b");
    }
  }

  lemma PrefixesFit(ms: Markets, s: State, run: seq<Action>)
    requires NeverLeaves(ms) && Initial(ms, s) && WalletsOnGrid(s.db.wallets) && |run| == 4
    ensures var s1 := Step(ms, s, run[0]); var s2 := Step(ms, s1, run[1]);
            var s3 := Step(ms, s2, run[2]); var s4 := Step(ms, s3, run[3]);
            Fits(s1) && Fits(s2) && Fits(s3) && Fits(s4)
  {
    hide Step, WalletsOnGrid, FeesOnGrid, Initial;
    var a, b, c := [run[0]], [run[0], run[1]], [run[0], run[1], run[2]];
    var s1 := Step(ms, s, run[0]);
    var s2 := Step(ms, s1, run[1]);
    Lifecycle.RunOne(ms, s, run[0]);
    Lifecycle.RunOne(ms, s1, run[1]);
    Lifecycle.RunOne(ms, s2, run[2]);
    assert b == a + [run[1]] && c == b + [run[2]];
    Lifecycle.RunAppend(ms, s, a, [run[1]]);
    Lifecycle.RunAppend(ms, s, b, [run[2]]);
    RunFour(ms, s, run);
    assert WalletsOnGrid(Run(ms, s, a).db.wallets) && WalletsOnGrid(Run(ms, s, b).db.wallets);
    assert WalletsOnGrid(Run(ms, s, c).db.wallets) && WalletsOnGrid(Run(ms, s, run).db.wallets);
  }

  /**
   Twelve decimals suffice for every wallet and every fee of every run if and
   only if every market is a grid market.
   */
  lemma GridIsExact(ms: Markets)
    requires MarketsOk(ms)
    requires forall x :: x in ms ==> ms[x].enabled && ms[x].tickSize > 0 && ms[x].stepSize > 0 && FeesSane(ms[x])
    ensures GridMarkets(ms) <==> NeverLeaves(ms)
  {
    hide GridMarket, Run, Initial, WalletsOnGrid, FeesOnGrid;
    if GridMarkets(ms) {
      forall s, actions | Initial(ms, s) && WalletsOnGrid(s.db.wallets)
        ensures WalletsOnGrid(Run(ms, s, actions).db.wallets) && FeesOnGrid(Run(ms, s, actions).db.trades)
      {
        TwelveDecimalsLoseNothing(ms, s, actions);
      }
    }
    if NeverLeaves(ms) {
      forall x | x in ms ensures GridMarket(ms[x]) {
        StaysSoOnGrid(ms, ms[x]);
      }
    }
  }

  lemma StaysSoOnGrid(ms: Markets, m: Market)
    requires NeverLeaves(ms) && MarketsOk(ms) && m.symbol in ms && ms[m.symbol] == m
    requires m.enabled && m.tickSize > 0 && m.stepSize > 0 && FeesSane(m)
    ensures GridMarket(m)
  {
    hide NeverLeaves, GridMarket, NetQuote, NetBase, QuoteAmount, BaseAmount;
    if !GridMarket(m) {
      var r := OffGridOrder(m);
      var price, qty := r.price.value, r.quantity;
      assert CanTrade(ms, m, price, qty);
      CrossShows(ms, m, Ask, price, qty);
      CrossShows(ms, m, Bid, price, qty);
      assert false;
    }
  }
}
