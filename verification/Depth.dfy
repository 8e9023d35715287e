/**
 What the depth snapshot shows and how far a MARKET order gets, by the resting
 entries themselves: a price counts while fewer than fifteen distinct better
 prices have orders.
 */
module Depth {
  import opened OrderBook
  import opened MarketSweep
  import opened Ledger
  import opened SettleFacts
  import opened Settlement
  import opened Invariant
  import opened SubmitProof
  import opened Exchange
  import opened Reboots

  /** The distinct prices in the queue that trade before this one. */
  function BetterPrices(side: Side, q: seq<Entry>, p: int): set<int> {
    set i | 0 <= i < |q| && Better(side, q[i].price, p) :: q[i].price
  }

  predicate Near(side: Side, q: seq<Entry>, p: int) {
    |BetterPrices(side, q, p)| < 15
  }

  /** Best price first, and a price with its whole quantity is there exactly if it has any and is near. */
  ghost predicate ListsDepth(side: Side, q: seq<Entry>, ls: seq<Level>) {
    && (forall i, j :: 0 <= i < j < |ls| ==> Better(side, ls[i].price, ls[j].price))
    && forall l :: l in ls <==> l.qty > 0 && l.qty == DepthAt(q, l.price) && Near(side, q, l.price)
  }

  function PricesOf(ls: seq<Level>): set<int> {
    set i | 0 <= i < |ls| :: ls[i].price
  }

  lemma {:induction false} PricesCount(side: Side, ls: seq<Level>)
    requires forall i, j :: 0 <= i < j < |ls| ==> Better(side, ls[i].price, ls[j].price)
    ensures |PricesOf(ls)| == |ls|
    decreases |ls|
  {
    if ls != [] {
      var init, last := ls[..|ls| - 1], ls[|ls| - 1];
      PricesCount(side, init);
      assert PricesOf(ls) == PricesOf(init) + {last.price} by {
        assert forall i :: 0 <= i < |init| ==> ls[i] == init[i];
      }
      assert last.price !in PricesOf(init);
    }
  }

  /** The prices better than a level's are those of the levels before it. */
  lemma BetterAreBefore(side: Side, q: seq<Entry>, i: nat)
    requires Sorted(side, q) && Positive(q) && i < |Levels(q)|
    ensures BetterPrices(side, q, Levels(q)[i].price) == PricesOf(Levels(q)[..i])
    ensures |BetterPrices(side, q, Levels(q)[i].price)| == i
  {
    LevelsMean(side, q);
    var ls := Levels(q);
    forall p ensures p in BetterPrices(side, q, ls[i].price) <==> p in PricesOf(ls[..i]) {
      DepthNonNegative(q, p);
      if p in BetterPrices(side, q, ls[i].price) {
        assert Level(p, DepthAt(q, p)) in ls;
        var j :| 0 <= j < |ls| && ls[j] == Level(p, DepthAt(q, p));
        assert j < i;
        assert ls[..i][j].price == p;
      }
      if p in PricesOf(ls[..i]) {
        var j :| 0 <= j < i && ls[j].price == p;
        assert ls[j] in ls;
        var n :| 0 <= n < |q| && q[n].price == p;
      }
    }
    PricesCount(side, ls[..i]);
  }

  /** The snapshot lists the near prices and nothing else. */
  lemma TopLevelsList(side: Side, q: seq<Entry>)
    requires Sorted(side, q) && Positive(q)
    ensures ListsDepth(side, q, TopLevels(q))
  {
    LevelsMean(side, q);
    var ls, top := Levels(q), TopLevels(q);
    assert top == if |ls| <= 15 then ls else ls[..15];
    forall l ensures l in top <==> l.qty > 0 && l.qty == DepthAt(q, l.price) && Near(side, q, l.price) {
      if l in ls {
        var i :| 0 <= i < |ls| && ls[i] == l;
        BetterAreBefore(side, q, i);
        if i < |top| {
          assert top[i] == l;
        }
      }
      if l in top {
        var i :| 0 <= i < |top| && top[i] == l;
        assert ls[i] == l;
        BetterAreBefore(side, q, i);
      }
    }
  }

  // ------------------------------------------------------ reach of a MARKET order

  /** Quantity on offer at these prices. */
  function OfferedAt(q: seq<Entry>, prices: set<int>): int {
    if q == [] then 0 else (if q[0].price in prices then q[0].qty else 0) + OfferedAt(q[1..], prices)
  }

  function NearPrices(side: Side, q: seq<Entry>): set<int> {
    set i | 0 <= i < |q| && Near(side, q, q[i].price) :: q[i].price
  }

  /** Quantity on offer at near prices. */
  function NearQuantity(side: Side, q: seq<Entry>): int {
    OfferedAt(q, NearPrices(side, q))
  }

  function LevelsAt(ls: seq<Level>, prices: set<int>): int {
    if ls == [] then 0 else (if ls[0].price in prices then ls[0].qty else 0) + LevelsAt(ls[1..], prices)
  }

  lemma {:induction false} LevelsOffer(q: seq<Entry>, prices: set<int>)
    ensures LevelsAt(Levels(q), prices) == OfferedAt(q, prices)
    decreases |q|
  {
    if q != [] {
      LevelsOffer(q[1..], prices);
      var ls := Levels(q[1..]);
      if ls != [] && ls[0].price == q[0].price {
        assert ([Level(q[0].price, q[0].qty + ls[0].qty)] + ls[1..])[1..] == ls[1..];
      } else {
        assert ([Level(q[0].price, q[0].qty)] + ls)[1..] == ls;
      }
    }
  }

  lemma {:induction false} AllCount(ls: seq<Level>, prices: set<int>)
    requires forall i :: 0 <= i < |ls| ==> ls[i].price in prices
    ensures LevelsAt(ls, prices) == LevelTotal(ls)
    decreases |ls|
  {
    if ls != [] {
      AllCount(ls[1..], prices);
    }
  }

  lemma {:induction false} NoneCount(ls: seq<Level>, prices: set<int>)
    requires forall i :: 0 <= i < |ls| ==> ls[i].price !in prices
    ensures LevelsAt(ls, prices) == 0
    decreases |ls|
  {
    if ls != [] {
      NoneCount(ls[1..], prices);
    }
  }

  lemma {:induction false} LevelsSplit(a: seq<Level>, b: seq<Level>, prices: set<int>)
    ensures LevelsAt(a + b, prices) == LevelsAt(a, prices) + LevelsAt(b, prices)
    decreases |a|
  {
    if a == [] {
      assert a + b == b;
    } else {
      assert (a + b)[1..] == a[1..] + b;
      LevelsSplit(a[1..], b, prices);
    }
  }

  /** The snapshot's total is what is on offer at near prices. */
  lemma SnapshotTotal(side: Side, q: seq<Entry>)
    requires Sorted(side, q) && Positive(q)
    ensures LevelTotal(TopLevels(q)) == NearQuantity(side, q)
  {
    var ls, top, near := Levels(q), TopLevels(q), NearPrices(side, q);
    var rest := ls[|top|..];
    assert ls == top + rest && top == if |ls| <= 15 then ls else ls[..15];
    forall i | 0 <= i < |ls| ensures ls[i].price in near <==> i < 15 {
      LevelsMean(side, q);
      BetterAreBefore(side, q, i);
      assert ls[i] in ls;
      DepthNonNegative(q, ls[i].price);
      var n :| 0 <= n < |q| && q[n].price == ls[i].price;
      assert Near(side, q, ls[i].price) <==> i < 15;
    }
    forall i | 0 <= i < |rest| ensures rest[i].price !in near {
      assert rest[i] == ls[|top| + i];
    }
    LevelsOffer(q, near);
    LevelsSplit(top, rest, near);
    AllCount(top, near);
    NoneCount(rest, near);
  }

  /**
   A committed MARKET order has filled the smaller of its quantity and what was
   on offer at near prices, best price first; a rest of it is not resting.
   */
  lemma MarketFills(ms: Markets, s: State, m: Market, t: Taker, cmd: CommandId)
    requires Inv(ms, s) && TakerOk(ms, m, s.db.orders, t) && !t.row.orderType.LIMIT?
    requires SettleMarket(s, m, t, m.symbol, cmd).outcome == Committed
    ensures var after := SettleMarket(s, m, t, m.symbol, cmd).state.db.orders;
            var offered := NearQuantity(t.row.side.Opposite(), BookOf(s.books, m.symbol).Queue(t.row.side.Opposite()));
            && t.id in after && offered >= 0
            && after[t.id].filledQty == (if t.row.quantity < offered then t.row.quantity else offered)
            && after[t.id].status == (if offered == 0 then CANCELLED else FILLED)
  {
    hide Inv, SettleMarket, SettleFills, Walk, FinishMarket, NearQuantity, TopLevels, SubmitEvents, GoodFills, Match;
    var d, e := MarketCommitted(ms, s, m, t, cmd);
    var opp := t.row.side.Opposite();
    QueueIsOk(ms, s, m.symbol, opp);
    var q := BookOf(s.books, m.symbol).Queue(opp);
    SnapshotTotal(opp, q);
    SnapshotPositive(opp, q);
    MarketRowOk(ms, t.row, t.id, t.row.quantity - WalkQty(s, m.symbol, t));
  }

  lemma QueueIsOk(ms: Markets, s: State, symbol: Symbol, side: Side)
    requires Inv(ms, s)
    ensures QueueOk(side, BookOf(s.books, symbol).Queue(side))
  {
    BookOfOk(s.db.orders, s.books, symbol);
  }

  lemma {:induction false} TotalPositive(ls: seq<Level>)
    requires forall l :: l in ls ==> l.qty > 0
    ensures LevelTotal(ls) >= 0
    decreases |ls|
  {
    if ls != [] {
      assert ls[0] in ls;
      TotalPositive(ls[1..]);
    }
  }

  lemma SnapshotPositive(side: Side, q: seq<Entry>)
    requires Sorted(side, q) && Positive(q)
    ensures LevelTotal(TopLevels(q)) >= 0
  {
    TopLevelsList(side, q);
    TotalPositive(TopLevels(q));
  }

  // --------------------------------------------------------------- the snapshot

  /** The last row a committed command appends is the snapshot of its market's book, both sides. */
  lemma SnapshotShowsBook(ms: Markets, s: State, c: Command)
    requires Inv(ms, s) && Published(s.db, c) && Deliver(ms, s, c).outcome == Committed
    ensures var r := Deliver(ms, s, c).state;
            var b := BookOf(r.books, c.symbol);
            && r.db.outbox != [] && var last := r.db.outbox[|r.db.outbox| - 1];
               last.BookSnapshot? && last.market == c.symbol && ListsDepth(Ask, b.asks, last.asks) && ListsDepth(Bid, b.bids, last.bids)
  {
    DeliverSnapshots(ms, s, c);
    StepKeepsAll(ms, s, Process(c));
    hide Deliver, TopLevels, ListsDepth, Conserved;
    var r := Deliver(ms, s, c).state;
    QueueIsOk(ms, r, c.symbol, Bid);
    QueueIsOk(ms, r, c.symbol, Ask);
    TopLevelsList(Ask, BookOf(r.books, c.symbol).asks);
    TopLevelsList(Bid, BookOf(r.books, c.symbol).bids);
  }

  lemma DeliverSnapshots(ms: Markets, s: State, c: Command)
    requires Inv(ms, s) && Published(s.db, c) && Deliver(ms, s, c).outcome == Committed
    ensures var r := Deliver(ms, s, c).state;
            r.db.outbox != [] && r.db.outbox[|r.db.outbox| - 1] == Snapshot(c.symbol, BookOf(r.books, c.symbol))
  {
    hide Add, SettleFills, SweepLevels, Release, CancelInBook, Snapshot, AllTradeEvents, MarketLevels, FinishLimit, FinishMarket;
    assert CommandOk(s.db.orders, c);
  }
}
