/**
 Restarting the matcher. When every live limit order has had its SUBMIT
 processed, replaying the open orders by id rebuilds the books without a single
 trade.
 */
module Reboots {
  import opened OrderBook
  import opened Ledger
  import opened SettleFacts
  import opened Settlement
  import opened Invariant
  import opened BookLink
  import opened Exchange
  import opened InSync

  // ------------------------------------------------ queues as sets of entries

  ghost predicate SameEntries(q: seq<Entry>, r: seq<Entry>) {
    forall e :: e in q <==> e in r
  }

  lemma HasMember<T>(s: seq<T>)
    requires s != []
    ensures exists x :: x in s
  {
    assert s[0] in s;
  }

  /** Quantity offered at one price. */
  function DepthAt(q: seq<Entry>, p: int): int {
    if q == [] then 0 else (if q[0].price == p then q[0].qty else 0) + DepthAt(q[1..], p)
  }

  lemma {:induction false} DepthNonNegative(q: seq<Entry>, p: int)
    requires Positive(q)
    ensures DepthAt(q, p) >= 0
    ensures DepthAt(q, p) > 0 <==> exists i :: 0 <= i < |q| && q[i].price == p
    decreases |q|
  {
    if q != [] {
      DepthNonNegative(q[1..], p);
      if DepthAt(q[1..], p) > 0 {
        var i :| 0 <= i < |q[1..]| && q[1..][i].price == p;
        assert q[i + 1].price == p;
      }
      if i :| 0 <= i < |q| && q[i].price == p {
        if i > 0 {
          assert q[1..][i - 1].price == p;
        }
      }
    }
  }

  /** The levels are strictly ordered and list exactly the prices on offer with their full depth. */
  lemma {:induction false} LevelsMean(side: Side, q: seq<Entry>)
    requires Sorted(side, q) && Positive(q)
    ensures forall i, j :: 0 <= i < j < |Levels(q)| ==> Better(side, Levels(q)[i].price, Levels(q)[j].price)
    ensures forall l :: l in Levels(q) <==> l.qty > 0 && l.qty == DepthAt(q, l.price)
    decreases |q|
  {
    if q != [] {
      var h, t := q[0], q[1..];
      LevelsMean(side, t);
      DepthNonNegative(t, h.price);
      var ls := Levels(t);
      if ls != [] && ls[0].price == h.price {
        var merged := Level(h.price, h.qty + ls[0].qty);
        assert ls[0] in ls;
        forall l ensures l in Levels(q) <==> l.qty > 0 && l.qty == DepthAt(q, l.price) {
          assert l in Levels(q) <==> l == merged || l in ls[1..];
          if l.price == h.price {
            assert l !in ls[1..];
          } else {
            assert l in ls <==> l in ls[1..];
          }
        }
      } else {
        forall j | 0 <= j < |ls| ensures Better(side, h.price, ls[j].price) {
          assert !Better(side, q[1].price, h.price);
        }
        assert Level(h.price, DepthAt(t, h.price)) in ls <==> DepthAt(t, h.price) > 0;
        forall l ensures l in Levels(q) <==> l.qty > 0 && l.qty == DepthAt(q, l.price) {
          assert l in Levels(q) <==> l == Level(h.price, h.qty) || l in ls;
        }
      }
    }
  }

  lemma {:induction false} DepthWithout(q: seq<Entry>, j: nat, p: int)
    requires j < |q|
    ensures DepthAt(q, p) == DepthAt(q[..j] + q[j + 1..], p) + if q[j].price == p then q[j].qty else 0
    decreases |q|
  {
    var r := q[..j] + q[j + 1..];
    if j == 0 {
      assert r == q[1..];
    } else {
      DepthWithout(q[1..], j - 1, p);
      assert r[1..] == q[1..][..j - 1] + q[1..][j..];
    }
  }

  lemma {:induction false} SameDepth(q: seq<Entry>, r: seq<Entry>, p: int)
    requires UniqueIds(q) && UniqueIds(r) && SameEntries(q, r)
    ensures DepthAt(q, p) == DepthAt(r, p)
    decreases |q|
  {
    if q == [] {
      if r != [] { HasMember(r); }
    } else {
      assert q[0] in q;
      var j :| 0 <= j < |r| && r[j] == q[0];
      var rest := r[..j] + r[j + 1..];
      forall e ensures e in q[1..] <==> e in rest {
        SameTail(q, r, j, e);
      }
      SameDepth(q[1..], rest, p);
      DepthWithout(r, j, p);
    }
  }

  lemma SameTail(q: seq<Entry>, r: seq<Entry>, j: nat, e: Entry)
    requires UniqueIds(q) && UniqueIds(r) && SameEntries(q, r) && q != [] && j < |r| && r[j] == q[0]
    ensures e in q[1..] <==> e in r[..j] + r[j + 1..]
  {
    var rest := r[..j] + r[j + 1..];
    if e in q[1..] {
      var i :| 0 <= i < |q[1..]| && q[1..][i] == e;
      assert q[i + 1] == e && e in q;
      var k :| 0 <= k < |r| && r[k] == e;
      assert k != j;
      assert rest[if k < j then k else k - 1] == e;
    }
    if e in rest {
      var i :| 0 <= i < |rest| && rest[i] == e;
      assert r[if i < j then i else i + 1] == e && e in r;
      var k :| 0 <= k < |q| && q[k] == e;
      assert k != 0;
      assert q[1..][k - 1] == e;
    }
  }

  /** Two strictly ordered sequences with the same elements are the same sequence. */
  lemma {:induction false} StrictOrderUnique<T(!new)>(before: (T, T) -> bool, a: seq<T>, b: seq<T>)
    requires forall x, y :: !(before(x, y) && before(y, x))
    requires forall i, j :: 0 <= i < j < |a| ==> before(a[i], a[j])
    requires forall i, j :: 0 <= i < j < |b| ==> before(b[i], b[j])
    requires forall x :: x in a <==> x in b
    ensures a == b
    decreases |a|
  {
    if a == [] {
      if b != [] { HasMember(b); }
    } else {
      assert a[0] in a;
      var j :| 0 <= j < |b| && b[j] == a[0];
      assert b[0] in b;
      var i :| 0 <= i < |a| && a[i] == b[0];
      assert i == 0 || j == 0;
      assert a[0] == b[0];
      forall x ensures x in a[1..] <==> x in b[1..] {
        if x in a[1..] {
          var k :| 0 <= k < |a[1..]| && a[1..][k] == x;
          assert before(a[0], a[k + 1]) && x in a;
          var l :| 0 <= l < |b| && b[l] == x;
          assert l != 0;
          assert b[1..][l - 1] == x;
        }
        if x in b[1..] {
          var k :| 0 <= k < |b[1..]| && b[1..][k] == x;
          assert before(b[0], b[k + 1]) && x in b;
          var l :| 0 <= l < |a| && a[l] == x;
          assert l != 0;
          assert a[1..][l - 1] == x;
        }
      }
      StrictOrderUnique(before, a[1..], b[1..]);
    }
  }

  /** The depth snapshot depends only on what rests, not on the order it arrived in. */
  lemma SameLevels(side: Side, q: seq<Entry>, r: seq<Entry>)
    requires QueueOk(side, q) && QueueOk(side, r) && SameEntries(q, r)
    ensures Levels(q) == Levels(r)
  {
    LevelsMean(side, q);
    LevelsMean(side, r);
    forall l ensures l in Levels(q) <==> l in Levels(r) {
      SameDepth(q, r, l.price);
    }
    StrictOrderUnique((x: Level, y: Level) => Better(side, x.price, y.price), Levels(q), Levels(r));
  }

  /** Within a price, ids ascend. */
  ghost predicate OldestIdFirst(q: seq<Entry>) {
    forall i, j :: 0 <= i < j < |q| && q[i].price == q[j].price ==> q[i].id < q[j].id
  }

  lemma SameQueue(side: Side, q: seq<Entry>, r: seq<Entry>)
    requires QueueOk(side, q) && QueueOk(side, r) && SameEntries(q, r) && OldestIdFirst(q) && OldestIdFirst(r)
    ensures q == r
  {
    var before := (x: Entry, y: Entry) => Better(side, x.price, y.price) || (x.price == y.price && x.id < y.id);
    forall i, j | 0 <= i < j < |q| ensures before(q[i], q[j]) {
      assert !Better(side, q[j].price, q[i].price);
    }
    forall i, j | 0 <= i < j < |r| ensures before(r[i], r[j]) {
      assert !Better(side, r[j].price, r[i].price);
    }
    StrictOrderUnique(before, q, r);
  }

  // ------------------------------------------------------------------ replay

  /** No SUBMIT of a limit order is outstanding: every live one rests, for exactly what it has left. */
  ghost predicate Quiet(ms: Markets, s: State) {
    && Inv(ms, s) && ExactBooks(s.db.orders, s.books)
    && forall id :: id in s.db.orders && Replayable(s.db.orders[id]) ==> RestsInBook(s, id)
  }

  /** The entry a live limit order has in the book. */
  function EntryOf(orders: map<OrderId, Order>, id: OrderId): Entry
    requires id in orders && orders[id].price.Some?
  {
    Entry(id, orders[id].price.value, orders[id].leaveQty)
  }

  lemma QuietEntry(ms: Markets, s: State, id: OrderId)
    requires Quiet(ms, s) && id in s.db.orders && Replayable(s.db.orders[id])
    ensures s.db.orders[id].price.Some?
    ensures EntryOf(s.db.orders, id) in BookOf(s.books, s.db.orders[id].market).Queue(s.db.orders[id].side)
  {
    var o := s.db.orders[id];
    assert OrderOk(ms, o);
    BookOfOk(s.db.orders, s.books, o.market);
    var e := RestingEntry(BookOf(s.books, o.market).Queue(o.side), id);
    assert EntryOk(s.db.orders, o.market, o.side, e);
  }

  /** The replayed books hold exactly the original entries of the ids replayed so far. */
  ghost predicate Rebuilt(s: State, ids: seq<OrderId>, symbol: Symbol, side: Side) {
    var q := BookOf(s.books, symbol).Queue(side);
    var r := BookOf(Replay(s.db.orders, ids), symbol).Queue(side);
    forall e :: e in r <==> e in q && e.id in ids
  }

  /** The next order of the replay crosses nothing: it joins its queue whole. */
  lemma ReplayJoins(ms: Markets, s: State, ids: seq<OrderId>, id: OrderId)
    requires Quiet(ms, s) && id in s.db.orders && Replayable(s.db.orders[id]) && id !in ids
    requires Rebuilt(s, ids, s.db.orders[id].market, Bid) && Rebuilt(s, ids, s.db.orders[id].market, Ask)
    ensures var o := s.db.orders[id];
            var b := BookOf(Replay(s.db.orders, ids), o.market);
            && o.price.Some?
            && Add(b, id, o.side, o.price.value, o.leaveQty)
               == Added(b.With(o.side, Insert(o.side, b.Queue(o.side), EntryOf(s.db.orders, id))), [], o.leaveQty)
  {
    var o := s.db.orders[id];
    assert OrderOk(ms, o);
    QuietEntry(ms, s, id);
    var b := BookOf(Replay(s.db.orders, ids), o.market);
    RestsMeans(b.bids, id);
    RestsMeans(b.asks, id);
    var original := BookOf(s.books, o.market);
    BookOfOk(s.db.orders, s.books, o.market);
    ApartIsUncrossed(original);
    var opp := b.Queue(o.side.Opposite());
    if opp != [] {
      assert opp[0] in opp && opp[0] in original.Queue(o.side.Opposite());
      assert !Crosses(o.side, o.price, opp[0].price);
    }
    assert Match(opp, o.side, o.price, o.leaveQty) == Matched([], opp, o.leaveQty);
    assert b.With(o.side.Opposite(), opp) == b;
  }

  /** What one replayed order does to the queues: it joins its own, nothing else moves. */
  lemma ReplayStep(ms: Markets, s: State, ids: seq<OrderId>, symbol: Symbol, side: Side)
    requires Quiet(ms, s) && ids != []
    requires var init, id := ids[..|ids| - 1], ids[|ids| - 1];
             && id in s.db.orders && Replayable(s.db.orders[id]) && id !in init
             && Rebuilt(s, init, s.db.orders[id].market, Bid) && Rebuilt(s, init, s.db.orders[id].market, Ask)
    ensures var init, id := ids[..|ids| - 1], ids[|ids| - 1];
            var q := BookOf(Replay(s.db.orders, init), symbol).Queue(side);
            && s.db.orders[id].price.Some?
            && BookOf(Replay(s.db.orders, ids), symbol).Queue(side)
               == if symbol == s.db.orders[id].market && side == s.db.orders[id].side
                  then Insert(side, q, EntryOf(s.db.orders, id)) else q
  {
    hide Match, Insert, Quiet;
    ReplayJoins(ms, s, ids[..|ids| - 1], ids[|ids| - 1]);
  }

  lemma {:induction false} ReplayRebuilds(ms: Markets, s: State, ids: seq<OrderId>, symbol: Symbol, side: Side)
    requires Quiet(ms, s)
    requires forall i :: 0 <= i < |ids| ==> ids[i] in s.db.orders && Replayable(s.db.orders[ids[i]])
    requires forall i, j :: 0 <= i < j < |ids| ==> ids[i] < ids[j]
    ensures Rebuilt(s, ids, symbol, side)
    decreases |ids|
  {
    hide Quiet;
    if ids != [] {
      var init, id := ids[..|ids| - 1], ids[|ids| - 1];
      var o := s.db.orders[id];
      ReplayRebuilds(ms, s, init, o.market, Bid);
      ReplayRebuilds(ms, s, init, o.market, Ask);
      ReplayRebuilds(ms, s, init, symbol, side);
      RebuiltOneMore(ms, s, ids, symbol, side);
    }
  }

  lemma RebuiltOneMore(ms: Markets, s: State, ids: seq<OrderId>, symbol: Symbol, side: Side)
    requires Quiet(ms, s) && ids != []
    requires var init, id := ids[..|ids| - 1], ids[|ids| - 1];
             && id in s.db.orders && Replayable(s.db.orders[id]) && id !in init
             && Rebuilt(s, init, symbol, side)
             && Rebuilt(s, init, s.db.orders[id].market, Bid) && Rebuilt(s, init, s.db.orders[id].market, Ask)
    ensures Rebuilt(s, ids, symbol, side)
  {
    hide Insert, Replay, Quiet;
    var init, id := ids[..|ids| - 1], ids[|ids| - 1];
    var o := s.db.orders[id];
    ReplayStep(ms, s, ids, symbol, side);
    QuietEntry(ms, s, id);
    InsertMembers(side, BookOf(Replay(s.db.orders, init), symbol).Queue(side), EntryOf(s.db.orders, id));
    var q, r := BookOf(s.books, symbol).Queue(side), BookOf(Replay(s.db.orders, ids), symbol).Queue(side);
    assert ids == init + [id];
    forall x | x in q && x.id == id ensures x == EntryOf(s.db.orders, id) && symbol == o.market && side == o.side {
      QuietEntryUnique(ms, s, symbol, side, x);
    }
  }

  lemma QuietEntryUnique(ms: Markets, s: State, symbol: Symbol, side: Side, x: Entry)
    requires Quiet(ms, s) && x in BookOf(s.books, symbol).Queue(side)
    ensures x.id in s.db.orders && s.db.orders[x.id].price.Some? && x == EntryOf(s.db.orders, x.id)
    ensures symbol == s.db.orders[x.id].market && side == s.db.orders[x.id].side && Replayable(s.db.orders[x.id])
  {
    BookOfOk(s.db.orders, s.books, symbol);
    assert EntryOk(s.db.orders, symbol, side, x);
  }

  /**
   Restarting a quiet exchange: no order trades during the replay, and every
   book has the same entries as before.
   */
  lemma RestartRestoresEntries(ms: Markets, s: State, symbol: Symbol, side: Side)
    requires Quiet(ms, s)
    ensures var b, r := BookOf(s.books, symbol), BookOf(Reboot(s.db), symbol);
            && SameEntries(b.Queue(side), r.Queue(side))
            && QueueOk(side, b.Queue(side)) && QueueOk(side, r.Queue(side))
  {
    hide OpenOrders, Replay;
    var ids := OpenOrders(s.db.orders, s.db.nextOrderId);
    OpenOrdersExact(s.db.orders, s.db.nextOrderId);
    forall i | 0 <= i < |ids| ensures ids[i] in s.db.orders && Replayable(s.db.orders[ids[i]]) {
      assert ids[i] in ids;
    }
    ReplayRebuilds(ms, s, ids, symbol, side);
    ReplayOk(ms, s.db.orders, ids);
    BookOfOk(s.db.orders, s.books, symbol);
    BookOfOk(s.db.orders, Reboot(s.db), symbol);
    forall e | e in BookOf(s.books, symbol).Queue(side) ensures e.id in ids {
      assert EntryOk(s.db.orders, symbol, side, e);
    }
  }

  /** Not one trade happens during the replay. */
  lemma ReplayNeverTrades(ms: Markets, s: State, k: nat)
    requires Quiet(ms, s) && k < |OpenOrders(s.db.orders, s.db.nextOrderId)|
    ensures var ids := OpenOrders(s.db.orders, s.db.nextOrderId);
            && ids[k] in s.db.orders && s.db.orders[ids[k]].price.Some?
            && var o := s.db.orders[ids[k]];
               var r := Add(BookOf(Replay(s.db.orders, ids[..k]), o.market), ids[k], o.side, o.price.value, o.leaveQty);
               r.Added? && r.fills == [] && r.leave == o.leaveQty
  {
    hide OpenOrders, Replay, Quiet, Add;
    var ids := OpenOrders(s.db.orders, s.db.nextOrderId);
    OpenOrdersExact(s.db.orders, s.db.nextOrderId);
    forall i | 0 <= i < |ids| ensures ids[i] in s.db.orders && Replayable(s.db.orders[ids[i]]) {
      assert ids[i] in ids;
    }
    var o := s.db.orders[ids[k]];
    ReplayRebuilds(ms, s, ids[..k], o.market, Bid);
    ReplayRebuilds(ms, s, ids[..k], o.market, Ask);
    ReplayJoins(ms, s, ids[..k], ids[k]);
  }

  /** A rebuilt queue with the same entries, equal prices in id order. */
  lemma RebuiltQueueAlike(side: Side, q: seq<Entry>, q1: seq<Entry>)
    requires SameEntries(q, q1) && QueueOk(side, q) && QueueOk(side, q1) && OldestIdFirst(q1)
    ensures forall id :: Resting(q1, id) == Resting(q, id)
    ensures TopLevels(q1) == TopLevels(q)
    ensures OldestIdFirst(q) <==> q1 == q
  {
    SameLevels(side, q, q1);
    forall id ensures Resting(q1, id) == Resting(q, id) {
      SameResting(q, q1, id);
    }
    if OldestIdFirst(q) {
      SameQueue(side, q, q1);
    }
  }

  lemma SameResting(q: seq<Entry>, r: seq<Entry>, id: nat)
    requires UniqueIds(q) && UniqueIds(r) && SameEntries(q, r)
    ensures Resting(r, id) == Resting(q, id)
  {
    RestsMeans(q, id);
    RestsMeans(r, id);
    if Rests(q, id) {
      var e := RestingEntry(q, id);
      var i :| 0 <= i < |q| && q[i] == e;
      var j :| 0 <= j < |r| && r[j] == e;
      RestingAt(q, i);
      RestingAt(r, j);
    }
  }

  /** A replayed queue has its ids ascending within each price. */
  lemma ReplayInIdOrder(ms: Markets, s: State, symbol: Symbol, side: Side)
    requires Quiet(ms, s)
    ensures OldestIdFirst(BookOf(Reboot(s.db), symbol).Queue(side))
  {
    var ids := OpenOrders(s.db.orders, s.db.nextOrderId);
    OpenOrdersExact(s.db.orders, s.db.nextOrderId);
    forall i | 0 <= i < |ids| ensures ids[i] in s.db.orders && Replayable(s.db.orders[ids[i]]) {
      assert ids[i] in ids;
    }
    PrefixInIdOrder(ms, s, ids, symbol, side);
  }

  lemma {:induction false} PrefixInIdOrder(ms: Markets, s: State, ids: seq<OrderId>, symbol: Symbol, side: Side)
    requires Quiet(ms, s)
    requires forall i :: 0 <= i < |ids| ==> ids[i] in s.db.orders && Replayable(s.db.orders[ids[i]])
    requires forall i, j :: 0 <= i < j < |ids| ==> ids[i] < ids[j]
    ensures OldestIdFirst(BookOf(Replay(s.db.orders, ids), symbol).Queue(side))
    decreases |ids|
  {
    hide Insert, RecordsOk, LocksMatch;
    if ids != [] {
      var init, id := ids[..|ids| - 1], ids[|ids| - 1];
      var o := s.db.orders[id];
      PrefixInIdOrder(ms, s, init, symbol, side);
      ReplayRebuilds(ms, s, init, o.market, Bid);
      ReplayRebuilds(ms, s, init, o.market, Ask);
      ReplayStep(ms, s, ids, symbol, side);
      if symbol == o.market && side == o.side {
        ReplayOk(ms, s.db.orders, init);
        BookOfOk(s.db.orders, Replay(s.db.orders, init), symbol);
        InsertInIdOrder(side, BookOf(Replay(s.db.orders, init), symbol).Queue(side), EntryOf(s.db.orders, id));
      }
    }
  }

  lemma InsertInIdOrder(side: Side, q: seq<Entry>, e: Entry)
    requires Sorted(side, q) && OldestIdFirst(q) && forall x :: x in q && x.price == e.price ==> x.id < e.id
    ensures OldestIdFirst(Insert(side, q, e))
  {
  }

  // ----------------------------------------------------------- what it keeps

  /** Every live limit order rests: no SUBMIT of a limit order is outstanding. */
  ghost predicate NoneOutstanding(s: State) {
    forall id :: id in s.db.orders && Replayable(s.db.orders[id]) ==> RestsInBook(s, id)
  }

  lemma RebuiltBookInSync(ms: Markets, s: State, seen: set<Command>, symbol: Symbol)
    requires Sync(ms, s, seen) && Quiet(ms, s)
    ensures var b := BookOf(Reboot(s.db), symbol);
            && ExactQueue(s.db.orders, b.bids) && ExactQueue(s.db.orders, b.asks)
            && QueueSeen(s.db.orders, b.bids, seen) && QueueSeen(s.db.orders, b.asks, seen)
  {
    hide Reboot, Inv;
    BookOfSync(ms, s, seen, symbol);
    RestartRestoresEntries(ms, s, symbol, Bid);
    RestartRestoresEntries(ms, s, symbol, Ask);
  }

  lemma RestsAgain(ms: Markets, s: State, id: OrderId)
    requires Quiet(ms, s) && RestsInBook(s, id)
    ensures RestsInBook(s.(books := Reboot(s.db)), id)
  {
    hide Reboot, Quiet;
    var o := s.db.orders[id];
    RestartRestoresEntries(ms, s, o.market, o.side);
    RestsMeans(BookOf(s.books, o.market).Queue(o.side), id);
    RestsMeans(BookOf(Reboot(s.db), o.market).Queue(o.side), id);
  }

  /** A restart with nothing outstanding keeps books and database in step. */
  lemma RestartSync(ms: Markets, s: State, seen: set<Command>)
    requires Sync(ms, s, seen) && NoneOutstanding(s)
    ensures Sync(ms, Step(ms, s, Restart), seen)
  {
    hide Reboot, DbOk, BooksOk, ExactQueue, QueueSeen;
    RestartKeeps(ms, s);
    var s1 := Step(ms, s, Restart);
    forall x | x in s1.books
      ensures ExactQueue(s.db.orders, s1.books[x].bids) && ExactQueue(s.db.orders, s1.books[x].asks)
      ensures QueueSeen(s.db.orders, s1.books[x].bids, seen) && QueueSeen(s.db.orders, s1.books[x].asks, seen)
    {
      RebuiltBookInSync(ms, s, seen, x);
    }
    forall c | c in seen ensures Published(s1.db, c) && Handled(s1, c) {
      assert Handled(s, c);
      if c.Submit? && RestsInBook(s, c.orderId) {
        RestsAgain(ms, s, c.orderId);
      }
    }
  }
}
