/**
 A reference limit order book with price-time priority. It states the contract
 the settlement engine relies on: an incoming order trades at the makers'
 prices, best price first and oldest first within a price; what is left rests;
 an id that is already resting is refused; the depth snapshot lists the best
 fifteen price levels of each side.
 */
module OrderBook {
  import opened Wrappers

  /** Depth of the snapshot (`new Orderbook({ limit: 15 })`). */
  const DEPTH_LIMIT: nat := 15

  datatype Side = Bid | Ask {
    function Opposite(): Side {
      if Bid? then Ask else Bid
    }
  }

  datatype Entry = Entry(id: nat, price: int, qty: int)

  datatype Fill = Fill(makerId: nat, price: int, qty: int)

  datatype Level = Level(price: int, qty: int)

  /** Each queue is kept in the order in which its entries will trade. */
  datatype Book = Book(bids: seq<Entry>, asks: seq<Entry>) {
    function Queue(side: Side): seq<Entry> {
      if side.Bid? then bids else asks
    }

    function With(side: Side, q: seq<Entry>): Book {
      if side.Bid? then this.(bids := q) else this.(asks := q)
    }
  }

  const EMPTY_BOOK := Book([], [])

  /** Price p trades strictly before price r in the queue of `side`. */
  predicate Better(side: Side, p: int, r: int) {
    if side.Bid? then p > r else p < r
  }

  /** An order of side `taker` with this limit (none: any price) accepts the maker's price. */
  predicate Crosses(taker: Side, limit: Option<int>, makerPrice: int) {
    limit.Some? ==> !Better(taker.Opposite(), limit.value, makerPrice)
  }

  // ---------------------------------------------------------------- matching

  datatype Matched = Matched(fills: seq<Fill>, queue: seq<Entry>, leave: int)

  function FillTotal(fills: seq<Fill>): int {
    if fills == [] then 0 else fills[0].qty + FillTotal(fills[1..])
  }

  /** One pass through the opposing queue. */
  function Match(q: seq<Entry>, taker: Side, limit: Option<int>, want: int): Matched {
    if want <= 0 || q == [] || !Crosses(taker, limit, q[0].price) then
      Matched([], q, want)
    else if want < q[0].qty then
      Matched([Fill(q[0].id, q[0].price, want)], [q[0].(qty := q[0].qty - want)] + q[1..], 0)
    else
      var m := Match(q[1..], taker, limit, want - q[0].qty);
      Matched([Fill(q[0].id, q[0].price, q[0].qty)] + m.fills, m.queue, m.leave)
  }

  /** Number of entries that keep priority over a new entry at price p. */
  function Position(side: Side, q: seq<Entry>, p: int): (n: nat)
    ensures n <= |q|
    ensures forall i :: 0 <= i < n ==> !Better(side, p, q[i].price)
    ensures n < |q| ==> Better(side, p, q[n].price)
  {
    if q == [] || Better(side, p, q[0].price) then 0
    else 1 + Position(side, q[1..], p)
  }

  function Insert(side: Side, q: seq<Entry>, e: Entry): seq<Entry> {
    var n := Position(side, q, e.price);
    q[..n] + [e] + q[n..]
  }

  /** Index of the entry with this id, |q| when there is none. */
  function IndexOf(q: seq<Entry>, id: nat): (n: nat)
    ensures n <= |q|
  {
    if q == [] || q[0].id == id then 0 else 1 + IndexOf(q[1..], id)
  }

  lemma {:induction false} IndexOfFirst(q: seq<Entry>, id: nat)
    ensures var n := IndexOf(q, id);
            (n < |q| ==> q[n].id == id) && forall i :: 0 <= i < n ==> q[i].id != id
    decreases |q|
  {
    if q != [] && q[0].id != id {
      IndexOfFirst(q[1..], id);
    }
  }

  predicate Rests(q: seq<Entry>, id: nat) {
    IndexOf(q, id) < |q|
  }

  /** An id rests exactly when some entry carries it. */
  lemma RestsMeans(q: seq<Entry>, id: nat)
    ensures !Rests(q, id) <==> forall e :: e in q ==> e.id != id
    ensures !Rests(q, id) <==> forall i :: 0 <= i < |q| ==> q[i].id != id
  {
    IndexOfFirst(q, id);
    if Rests(q, id) {
      assert q[IndexOf(q, id)] in q;
    }
  }

  predicate InBook(b: Book, id: nat) {
    Rests(b.bids, id) || Rests(b.asks, id)
  }

  datatype AddResult = Refused | Added(book: Book, fills: seq<Fill>, leave: int)

  /** `book.add(id, side, price, quantity)`. */
  function Add(b: Book, id: nat, side: Side, price: int, qty: int): AddResult {
    if InBook(b, id) then Refused
    else
      var m := Match(b.Queue(side.Opposite()), side, Some(price), qty);
      var b1 := b.With(side.Opposite(), m.queue);
      var b2 := if m.leave > 0
                then b1.With(side, Insert(side, b1.Queue(side), Entry(id, price, m.leave)))
                else b1;
      Added(b2, m.fills, m.leave)
  }

  function RemoveId(q: seq<Entry>, id: nat): seq<Entry> {
    var n := IndexOf(q, id);
    if n < |q| then q[..n] + q[n + 1..] else q
  }

  /** `book.cancel(id)`; the library throws when the id is not resting. */
  function Cancel(b: Book, id: nat): Option<Book> {
    if InBook(b, id) then Some(Book(RemoveId(b.bids, id), RemoveId(b.asks, id))) else None
  }

  /** All price levels of a queue, best first, with the sum of their quantities. */
  function Levels(q: seq<Entry>): (ls: seq<Level>)
    ensures q == [] <==> ls == []
    ensures q != [] ==> ls[0].price == q[0].price
  {
    if q == [] then []
    else
      var ls := Levels(q[1..]);
      if ls != [] && ls[0].price == q[0].price
      then [Level(q[0].price, q[0].qty + ls[0].qty)] + ls[1..]
      else [Level(q[0].price, q[0].qty)] + ls
  }

  /** One side of `book.getOrderbook()`. */
  function TopLevels(q: seq<Entry>): seq<Level> {
    var ls := Levels(q);
    if |ls| <= DEPTH_LIMIT then ls else ls[..DEPTH_LIMIT]
  }

  // --------------------------------------------------------- well-formedness

  ghost predicate Sorted(side: Side, q: seq<Entry>) {
    forall i, j :: 0 <= i < j < |q| ==> !Better(side, q[j].price, q[i].price)
  }

  ghost predicate UniqueIds(q: seq<Entry>) {
    forall i, j :: 0 <= i < j < |q| ==> q[i].id != q[j].id
  }

  ghost predicate Positive(q: seq<Entry>) {
    forall i :: 0 <= i < |q| ==> q[i].qty > 0
  }

  ghost predicate QueueOk(side: Side, q: seq<Entry>) {
    Sorted(side, q) && UniqueIds(q) && Positive(q)
  }

  ghost predicate Uncrossed(b: Book) {
    forall i, j :: 0 <= i < |b.bids| && 0 <= j < |b.asks| ==> b.bids[i].price < b.asks[j].price
  }

  ghost predicate DisjointIds(b: Book) {
    forall i, j :: 0 <= i < |b.bids| && 0 <= j < |b.asks| ==> b.bids[i].id != b.asks[j].id
  }

  ghost predicate WellFormed(b: Book) {
    QueueOk(Bid, b.bids) && QueueOk(Ask, b.asks) && Uncrossed(b) && DisjointIds(b)
  }

  /** Quantity resting under an id. */
  function Resting(q: seq<Entry>, id: nat): int {
    var n := IndexOf(q, id);
    if n < |q| then q[n].qty else 0
  }

  /** Quantity traded against an id. */
  function Filled(fills: seq<Fill>, id: nat): int {
    if fills == [] then 0
    else (if fills[0].makerId == id then fills[0].qty else 0) + Filled(fills[1..], id)
  }

  // ------------------------------------------------------------------ shapes

  /**
   The pass took the first n entries whole and, when part > 0, that much of the
   next one; the rest of the queue is untouched.
   */
  ghost predicate IsCut(q: seq<Entry>, m: Matched, n: nat, part: int) {
    && n <= |q|
    && 0 <= part
    && (forall i :: 0 <= i < n && i < |m.fills| ==> m.fills[i] == Fill(q[i].id, q[i].price, q[i].qty))
    && if part == 0 then
         m.queue == q[n..] && |m.fills| == n
       else
         && n < |q| && part < q[n].qty
         && m.queue == [q[n].(qty := q[n].qty - part)] + q[n + 1..]
         && |m.fills| == n + 1 && m.fills[n] == Fill(q[n].id, q[n].price, part)
  }

  /** Nothing is lost: what traded and what is left make up what came in. */
  lemma {:induction false} MatchTotal(q: seq<Entry>, taker: Side, limit: Option<int>, want: int)
    ensures var m := Match(q, taker, limit, want); FillTotal(m.fills) + m.leave == want
    decreases |q|
  {
    if !(want <= 0 || q == [] || !Crosses(taker, limit, q[0].price)) {
      if want < q[0].qty {
        assert [Fill(q[0].id, q[0].price, want)][1..] == [];
      } else {
        MatchTotal(q[1..], taker, limit, want - q[0].qty);
        var t := Match(q[1..], taker, limit, want - q[0].qty);
        assert ([Fill(q[0].id, q[0].price, q[0].qty)] + t.fills)[1..] == t.fills;
      }
    }
  }

  lemma CutCons(q: seq<Entry>, t: Matched, n: nat, part: int)
    requires q != [] && IsCut(q[1..], t, n, part)
    ensures IsCut(q, Matched([Fill(q[0].id, q[0].price, q[0].qty)] + t.fills, t.queue, t.leave), n + 1, part)
  {
  }

  /** Matching is a cut of the queue, and stops only when satisfied or at the limit. */
  lemma {:induction false} MatchShape(q: seq<Entry>, taker: Side, limit: Option<int>, want: int)
    returns (n: nat, part: int)
    requires Positive(q) && want >= 0
    ensures IsCut(q, Match(q, taker, limit, want), n, part)
    ensures Match(q, taker, limit, want).leave >= 0
    ensures Match(q, taker, limit, want).leave > 0 ==>
              part == 0 && (n == |q| || !Crosses(taker, limit, q[n].price))
    decreases |q|
  {
    if want <= 0 || q == [] || !Crosses(taker, limit, q[0].price) {
      n, part := 0, 0;
      assert q[0..] == q;
    } else if want < q[0].qty {
      n, part := 0, want;
    } else {
      n, part := MatchShape(q[1..], taker, limit, want - q[0].qty);
      CutCons(q, Match(q[1..], taker, limit, want - q[0].qty), n, part);
      n := n + 1;
    }
  }

  /** Every trade has a positive quantity at a price the taker accepts. */
  lemma {:induction false} FillsAcceptable(q: seq<Entry>, taker: Side, limit: Option<int>, want: int)
    requires Positive(q)
    ensures forall f :: f in Match(q, taker, limit, want).fills ==> Crosses(taker, limit, f.price) && f.qty > 0
    decreases |q|
  {
    if !(want <= 0 || q == [] || !Crosses(taker, limit, q[0].price)) {
      if want >= q[0].qty {
        FillsAcceptable(q[1..], taker, limit, want - q[0].qty);
      }
    }
  }

  lemma {:induction false} RestingAt(q: seq<Entry>, i: nat)
    requires UniqueIds(q) && i < |q|
    ensures IndexOf(q, q[i].id) == i && Resting(q, q[i].id) == q[i].qty
  {
    IndexOfFirst(q, q[i].id);
  }

  /** Every resting id gives up exactly what it traded. */
  lemma {:induction false} MatchPerId(q: seq<Entry>, taker: Side, limit: Option<int>, want: int, id: nat)
    requires Positive(q) && UniqueIds(q) && want >= 0
    ensures var m := Match(q, taker, limit, want);
            && Resting(m.queue, id) == Resting(q, id) - Filled(m.fills, id)
            && Filled(m.fills, id) >= 0
            && Resting(m.queue, id) >= 0
            && (Rests(m.queue, id) <==> Resting(m.queue, id) > 0)
            && (Filled(m.fills, id) > 0 ==> Rests(q, id))
    decreases |q|
  {
    if want <= 0 || q == [] || !Crosses(taker, limit, q[0].price) {
    } else if want < q[0].qty {
      assert [Fill(q[0].id, q[0].price, want)][1..] == [];
    } else {
      var t := Match(q[1..], taker, limit, want - q[0].qty);
      MatchPerId(q[1..], taker, limit, want - q[0].qty, id);
      var fills := [Fill(q[0].id, q[0].price, q[0].qty)] + t.fills;
      assert fills[1..] == t.fills;
      if q[0].id == id {
        RestsMeans(q[1..], id);
      }
    }
  }

  /** A cut of a well-formed queue is well formed. */
  lemma CutOk(side: Side, q: seq<Entry>, m: Matched, n: nat, part: int)
    requires QueueOk(side, q) && IsCut(q, m, n, part)
    ensures QueueOk(side, m.queue)
    ensures |m.queue| == |q| - n
    ensures forall i :: 0 <= i < |m.queue| ==>
              && m.queue[i].id == q[n + i].id && m.queue[i].price == q[n + i].price
              && 0 < m.queue[i].qty <= q[n + i].qty
  {
  }

  lemma InsertAt(side: Side, q: seq<Entry>, e: Entry, i: nat)
    requires i <= |q|
    ensures var r := Insert(side, q, e); var n := Position(side, q, e.price);
            |r| == |q| + 1 && r[i] == if i < n then q[i] else if i == n then e else q[i - 1]
  {
  }

  lemma InsertPairOk(side: Side, q: seq<Entry>, e: Entry, i: nat, j: nat)
    requires QueueOk(side, q) && !Rests(q, e.id) && e.qty > 0 && i < j <= |q|
    ensures var r := Insert(side, q, e);
            !Better(side, r[j].price, r[i].price) && r[i].id != r[j].id && r[i].qty > 0 && r[j].qty > 0
  {
    RestsMeans(q, e.id);
    InsertAt(side, q, e, i);
    InsertAt(side, q, e, j);
    var n := Position(side, q, e.price);
    if i == n && n < j - 1 {
      assert !Better(side, q[j - 1].price, q[n].price);
    }
  }

  lemma InsertOk(side: Side, q: seq<Entry>, e: Entry)
    requires QueueOk(side, q) && !Rests(q, e.id) && e.qty > 0
    ensures QueueOk(side, Insert(side, q, e))
  {
    var r := Insert(side, q, e);
    forall i, j | 0 <= i < j < |r|
      ensures !Better(side, r[j].price, r[i].price) && r[i].id != r[j].id
    {
      InsertPairOk(side, q, e, i, j);
    }
    forall i | 0 <= i < |r| ensures r[i].qty > 0 {
      InsertAt(side, q, e, i);
    }
  }

  lemma InsertMembers(side: Side, q: seq<Entry>, e: Entry)
    ensures forall x :: x in Insert(side, q, e) <==> x == e || x in q
  {
  }

  lemma RemoveMembers(q: seq<Entry>, id: nat)
    requires UniqueIds(q)
    ensures forall x :: x in RemoveId(q, id) <==> x in q && x.id != id
  {
    var n := IndexOf(q, id);
    var r := RemoveId(q, id);
    IndexOfFirst(q, id);
    if n < |q| {
      forall x | x in q && x.id != id ensures x in r {
        var i :| 0 <= i < |q| && q[i] == x;
        assert r[if i < n then i else i - 1] == x;
      }
      forall x | x in r ensures x in q && x.id != id {
        var i :| 0 <= i < |r| && r[i] == x;
        assert q[if i < n then i else i + 1] == x;
      }
    } else {
      RestsMeans(q, id);
    }
  }

  lemma RemoveOk(side: Side, q: seq<Entry>, id: nat)
    requires QueueOk(side, q)
    ensures QueueOk(side, RemoveId(q, id)) && !Rests(RemoveId(q, id), id)
    ensures forall x :: x in RemoveId(q, id) <==> x in q && x.id != id
  {
    RemoveMembers(q, id);
    RemoveKeepsOrder(side, q, id);
    hide RemoveId, Rests, QueueOk;
    RestsMeans(RemoveId(q, id), id);
  }

  lemma RemoveKeepsOrder(side: Side, q: seq<Entry>, id: nat)
    requires QueueOk(side, q)
    ensures QueueOk(side, RemoveId(q, id))
  {
  }

  // ------------------------------------------------------------- add, cancel

  /** What is left of a queue after matching stays on its side of the incoming limit. */
  lemma RestBehindLimit(taker: Side, q: seq<Entry>, price: int, want: int)
    requires QueueOk(taker.Opposite(), q) && want >= 0
    requires Match(q, taker, Some(price), want).leave > 0
    ensures forall x :: x in Match(q, taker, Some(price), want).queue ==> !Crosses(taker, Some(price), x.price)
  {
  }

  /** Both queues of the book stay in price-time order with distinct ids and positive quantities. */
  lemma AddKeepsQueues(b: Book, id: nat, side: Side, price: int, qty: int)
    requires QueueOk(Bid, b.bids) && QueueOk(Ask, b.asks) && qty > 0
    requires Add(b, id, side, price, qty).Added?
    ensures var c := Add(b, id, side, price, qty).book; QueueOk(Bid, c.bids) && QueueOk(Ask, c.asks)
  {
    var opp := side.Opposite();
    var q := b.Queue(opp);
    var m := Match(q, side, Some(price), qty);
    var n, part := MatchShape(q, side, Some(price), qty);
    CutOk(opp, q, m, n, part);
    if m.leave > 0 {
      InsertOk(side, b.Queue(side), Entry(id, price, m.leave));
    }
  }

  /** Every entry after matching was there before, with the same price and no less quantity. */
  lemma MatchMembers(q: seq<Entry>, taker: Side, limit: Option<int>, want: int, x: Entry)
    returns (y: Entry)
    requires QueueOk(taker.Opposite(), q) && want >= 0
    requires x in Match(q, taker, limit, want).queue
    ensures y in q && y.id == x.id && y.price == x.price && 0 < x.qty <= y.qty
  {
    var m := Match(q, taker, limit, want);
    var n, part := MatchShape(q, taker, limit, want);
    CutOk(taker.Opposite(), q, m, n, part);
    var j :| 0 <= j < |m.queue| && m.queue[j] == x;
    y := q[n + j];
  }

  ghost predicate Apart(side: Side, own: seq<Entry>, opp: seq<Entry>) {
    forall x, y :: x in own && y in opp ==>
      x.id != y.id && if side.Bid? then x.price < y.price else y.price < x.price
  }

  lemma ApartIsUncrossed(b: Book)
    ensures Apart(Bid, b.bids, b.asks) <==> Uncrossed(b) && DisjointIds(b)
    ensures Apart(Ask, b.asks, b.bids) <==> Uncrossed(b) && DisjointIds(b)
  {
    if Uncrossed(b) && DisjointIds(b) {
      forall x, y | x in b.bids && y in b.asks ensures x.id != y.id && x.price < y.price {
        var i :| 0 <= i < |b.bids| && b.bids[i] == x;
        var j :| 0 <= j < |b.asks| && b.asks[j] == y;
      }
    }
    if Apart(Bid, b.bids, b.asks) || Apart(Ask, b.asks, b.bids) {
      forall i, j | 0 <= i < |b.bids| && 0 <= j < |b.asks|
        ensures b.bids[i].id != b.asks[j].id && b.bids[i].price < b.asks[j].price
      {
        assert b.bids[i] in b.bids && b.asks[j] in b.asks;
      }
    }
  }

  /** Adding keeps the book well formed: sorted, never crossed, ids unique. */
  lemma AddKeepsWellFormed(b: Book, id: nat, side: Side, price: int, qty: int)
    requires WellFormed(b) && qty > 0
    requires Add(b, id, side, price, qty).Added?
    ensures WellFormed(Add(b, id, side, price, qty).book)
  {
    var c := Add(b, id, side, price, qty).book;
    var q, own := b.Queue(side.Opposite()), b.Queue(side);
    var m := Match(q, side, Some(price), qty);
    AddKeepsQueues(b, id, side, price, qty);
    ApartIsUncrossed(b);
    assert Apart(side, own, q);
    if m.leave > 0 {
      RestBehindLimit(side, q, price, qty);
      InsertMembers(side, own, Entry(id, price, m.leave));
    }
    forall x, y | x in c.Queue(side) && y in m.queue
      ensures x.id != y.id && if side.Bid? then x.price < y.price else y.price < x.price
    {
      var z := MatchMembers(q, side, Some(price), qty, y);
      if x !in own {
        RestsMeans(q, id);
      }
    }
    assert Apart(side, c.Queue(side), m.queue);
    ApartIsUncrossed(c);
  }

  lemma CancelKeepsWellFormed(b: Book, id: nat)
    requires WellFormed(b) && Cancel(b, id).Some?
    ensures WellFormed(Cancel(b, id).value) && !InBook(Cancel(b, id).value, id)
  {
    RemoveOk(Bid, b.bids, id);
    RemoveOk(Ask, b.asks, id);
    var c := Cancel(b, id).value;
    forall i, j | 0 <= i < |c.bids| && 0 <= j < |c.asks|
      ensures c.bids[i].price < c.asks[j].price && c.bids[i].id != c.asks[j].id
    {
      assert c.bids[i] in b.bids && c.asks[j] in b.asks;
    }
  }
}
