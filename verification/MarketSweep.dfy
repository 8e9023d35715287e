/**
 The level-by-level sweep of a MARKET order, on the book alone: one synthetic
 limit order per price level of the depth snapshot, taken in order until the
 quantity is used up.
 */
module MarketSweep {
  import opened Wrappers
  import opened OrderBook

  /** Ids of the synthetic orders: Number(order.id) * 1000 + 1_000_000_000 + level. */
  const SWEEP_OFFSET: nat := 1_000_000_000

  const SWEEP_STRIDE: nat := 1000

  function SweepId(orderId: nat, level: nat): nat {
    orderId * SWEEP_STRIDE + SWEEP_OFFSET + level
  }

  function Min(a: int, b: int): int {
    if a <= b then a else b
  }

  function LevelTotal(levels: seq<Level>): int {
    if levels == [] then 0 else levels[0].qty + LevelTotal(levels[1..])
  }

  /** The book after one synthetic order: its residue, if any, is cancelled again. */
  function DropResidue(b: Book, sweepId: nat, leave: int): Book {
    if leave > 0 then
      match Cancel(b, sweepId) {
        case Some(c) => c
        case None => b
      }
    else b
  }

  datatype Swept = Swept(book: Book, fills: seq<Fill>, remaining: int, refused: bool)

  /** The loop over the snapshot's levels. */
  function Sweep(b: Book, orderId: nat, side: Side, levels: seq<Level>, k: nat, remaining: int): Swept
    decreases |levels|
  {
    if levels == [] || remaining <= 0 then Swept(b, [], remaining, false)
    else
      var take := Min(levels[0].qty, remaining);
      match Add(b, SweepId(orderId, k), side, levels[0].price, take) {
        case Refused => Swept(b, [], remaining, true)
        case Added(b1, fills, leave) =>
          var s := Sweep(DropResidue(b1, SweepId(orderId, k), leave), orderId, side, levels[1..], k + 1, remaining - take);
          s.(fills := fills + s.fills)
      }
  }

  lemma {:induction false} LevelsPositive(q: seq<Entry>)
    requires Positive(q)
    ensures forall i :: 0 <= i < |Levels(q)| ==> Levels(q)[i].qty > 0
    decreases |q|
  {
    if q != [] {
      LevelsPositive(q[1..]);
    }
  }

  lemma {:induction false} LevelTotalNonNegative(levels: seq<Level>)
    requires forall i :: 0 <= i < |levels| ==> levels[i].qty > 0
    ensures LevelTotal(levels) >= 0
    decreases |levels|
  {
    if levels != [] {
      LevelTotalNonNegative(levels[1..]);
    }
  }

  lemma LevelsUnfold(q: seq<Entry>)
    requires Positive(q) && q != []
    ensures Levels(q)[0].qty >= q[0].qty
    ensures Levels(q)[0].qty == q[0].qty ==> Levels(q)[1..] == Levels(q[1..])
    ensures Levels(q)[0].qty > q[0].qty ==>
              && q[1..] != [] && q[1].price == q[0].price
              && Levels(q[1..])[0].qty == Levels(q)[0].qty - q[0].qty
              && Levels(q)[1..] == Levels(q[1..])[1..]
  {
    LevelsPositive(q[1..]);
  }

  /** Within the best level a limit at that level's price is no restriction. */
  lemma {:induction false} LimitAtBestLevel(q: seq<Entry>, side: Side, take: int)
    requires Positive(q) && q != []
    requires 0 < take <= Levels(q)[0].qty
    ensures Match(q, side, Some(q[0].price), take) == Match(q, side, None, take)
    ensures Match(q, side, None, take).leave == 0
    decreases |q|
  {
    LevelsUnfold(q);
    if take > q[0].qty {
      LimitAtBestLevel(q[1..], side, take - q[0].qty);
    }
  }

  /** Taking the whole best level exposes the next one. */
  lemma {:induction false} WholeLevelExposesNext(q: seq<Entry>, side: Side)
    requires Positive(q) && q != []
    ensures Levels(Match(q, side, None, Levels(q)[0].qty).queue) == Levels(q)[1..]
    decreases |q|
  {
    LevelsUnfold(q);
    if Levels(q)[0].qty > q[0].qty {
      WholeLevelExposesNext(q[1..], side);
    }
  }

  /** A walk for `first + more` continues where the walk for `first` stopped. */
  ghost predicate Continues(q: seq<Entry>, side: Side, first: int, more: int) {
    var m := Match(q, side, None, first);
    var t := Match(m.queue, side, None, more);
    Match(q, side, None, first + more) == Matched(m.fills + t.fills, t.queue, t.leave)
  }

  lemma ContinuesAfterHead(q: seq<Entry>, side: Side, first: int, more: int)
    requires Positive(q) && q != [] && first >= 0 && more >= 0
    requires Continues(q[1..], side, first, more)
    ensures Continues(q, side, q[0].qty + first, more)
  {
  }

  /** A longer walk is the walk through the best level followed by the walk through the rest. */
  lemma {:induction false} WalkSplitsAtLevel(q: seq<Entry>, side: Side, more: int)
    requires Positive(q) && q != [] && more >= 0
    ensures Continues(q, side, Levels(q)[0].qty, more)
    decreases |q|
  {
    LevelsUnfold(q);
    var rest := Levels(q)[0].qty - q[0].qty;
    if rest > 0 {
      WalkSplitsAtLevel(q[1..], side, more);
    } else {
      var t := Match(q[1..], side, None, more);
      assert [] + t.fills == t.fills;
      assert Match(q[1..], side, None, 0) == Matched([], q[1..], 0);
      assert Continues(q[1..], side, 0, more);
    }
    assert Continues(q[1..], side, rest, more);
    ContinuesAfterHead(q, side, rest, more);
  }

  /** No synthetic id of this order collides with a resting order. */
  ghost predicate SweepIdsFree(b: Book, orderId: nat, k: nat, n: nat) {
    forall i :: k <= i < k + n ==> !InBook(b, SweepId(orderId, i))
  }

  lemma MatchKeepsAbsent(q: seq<Entry>, side: Side, limit: Option<int>, want: int, id: nat)
    requires QueueOk(side.Opposite(), q) && want >= 0 && !Rests(q, id)
    ensures !Rests(Match(q, side, limit, want).queue, id)
  {
    MatchPerId(q, side, limit, want, id);
  }

  lemma PrefixTail(levels: seq<Level>, all: seq<Level>)
    requires levels <= all && levels != []
    ensures levels[0] == all[0] && levels[1..] <= all[1..]
  {
  }

  /** One iteration of the sweep, with its synthetic id free. */
  lemma SweepStep(b: Book, orderId: nat, side: Side, levels: seq<Level>, k: nat, remaining: int)
    requires QueueOk(side.Opposite(), b.Queue(side.Opposite())) && remaining > 0 && levels != []
    requires levels <= Levels(b.Queue(side.Opposite()))
    requires !InBook(b, SweepId(orderId, k))
    ensures var opp := side.Opposite(); var take := Min(levels[0].qty, remaining);
            var m := Match(b.Queue(opp), side, None, take);
            && take > 0 && m.leave == 0
            && QueueOk(opp, m.queue)
            && Add(b, SweepId(orderId, k), side, levels[0].price, take) == Added(b.With(opp, m.queue), m.fills, 0)
            && (take == levels[0].qty ==> levels[1..] <= Levels(m.queue))
  {
    var opp := side.Opposite();
    var q := b.Queue(opp);
    PrefixTail(levels, Levels(q));
    LevelsPositive(q);
    var take := Min(levels[0].qty, remaining);
    LimitAtBestLevel(q, side, take);
    var m := Match(q, side, None, take);
    var n, part := MatchShape(q, side, None, take);
    CutOk(opp, q, m, n, part);
    if take == levels[0].qty {
      WholeLevelExposesNext(q, side);
    }
  }

  lemma WalkKeepsIdsFree(b: Book, orderId: nat, side: Side, want: int, k: nat, n: nat)
    requires QueueOk(side.Opposite(), b.Queue(side.Opposite())) && want >= 0 && n > 0
    requires SweepIdsFree(b, orderId, k, n)
    ensures SweepIdsFree(b.With(side.Opposite(), Match(b.Queue(side.Opposite()), side, None, want).queue), orderId, k + 1, n - 1)
  {
    var q := b.Queue(side.Opposite());
    var b1 := b.With(side.Opposite(), Match(q, side, None, want).queue);
    forall i | k + 1 <= i < k + n ensures !InBook(b1, SweepId(orderId, i)) {
      assert !InBook(b, SweepId(orderId, i));
      MatchKeepsAbsent(q, side, None, want, SweepId(orderId, i));
    }
  }

  /** With its synthetic ids free the sweep is never refused. */
  lemma {:induction false} SweepNotRefused(b: Book, orderId: nat, side: Side, levels: seq<Level>, k: nat, remaining: int)
    requires QueueOk(side.Opposite(), b.Queue(side.Opposite())) && remaining >= 0
    requires levels <= Levels(b.Queue(side.Opposite()))
    requires SweepIdsFree(b, orderId, k, |levels|)
    ensures !Sweep(b, orderId, side, levels, k, remaining).refused
    decreases |levels|
  {
    if levels != [] && remaining > 0 {
      assert !InBook(b, SweepId(orderId, k));
      SweepStep(b, orderId, side, levels, k, remaining);
      var take := Min(levels[0].qty, remaining);
      WalkKeepsIdsFree(b, orderId, side, take, k, |levels|);
      if remaining > levels[0].qty {
        var b1 := b.With(side.Opposite(), Match(b.Queue(side.Opposite()), side, None, take).queue);
        SweepNotRefused(b1, orderId, side, levels[1..], k + 1, remaining - take);
      }
    }
  }

  /** Unrolling the sweep once. */
  lemma SweepUnfold(b: Book, orderId: nat, side: Side, levels: seq<Level>, k: nat, remaining: int, b1: Book, fills: seq<Fill>)
    requires levels != [] && remaining > 0
    requires Add(b, SweepId(orderId, k), side, levels[0].price, Min(levels[0].qty, remaining)) == Added(b1, fills, 0)
    ensures var s := Sweep(b1, orderId, side, levels[1..], k + 1, remaining - Min(levels[0].qty, remaining));
            Sweep(b, orderId, side, levels, k, remaining) == s.(fills := fills + s.fills)
  {
  }

  /** Where the sweep ends up when it follows a direct walk for a quantity w. */
  function WalkOutcome(b: Book, side: Side, w: int, remaining: int): Swept {
    var m := Match(b.Queue(side.Opposite()), side, None, w);
    Swept(b.With(side.Opposite(), m.queue), m.fills, remaining - w, false)
  }

  /** What the sweep fills: min(quantity, depth of the listed levels). */
  function SweepQty(levels: seq<Level>, remaining: int): int {
    Min(remaining, LevelTotal(levels))
  }

  ghost predicate RefinesWalk(b: Book, orderId: nat, side: Side, levels: seq<Level>, k: nat, remaining: int) {
    var w := SweepQty(levels, remaining);
    && 0 <= w && Match(b.Queue(side.Opposite()), side, None, w).leave == 0
    && Sweep(b, orderId, side, levels, k, remaining) == WalkOutcome(b, side, w, remaining)
  }

  lemma QueueOfWith(b: Book, side: Side, q: seq<Entry>, r: seq<Entry>)
    ensures b.With(side, q).Queue(side) == q
    ensures b.With(side, q).With(side, r) == b.With(side, r)
    ensures b.With(side, b.Queue(side)) == b
  {
  }

  lemma SweepPrepend(b: Book, orderId: nat, side: Side, levels: seq<Level>, k: nat, remaining: int)
    requires QueueOk(side.Opposite(), b.Queue(side.Opposite())) && levels != []
    requires levels[0].qty < remaining && 0 < levels[0].qty
    requires var m := Match(b.Queue(side.Opposite()), side, None, levels[0].qty);
             && Add(b, SweepId(orderId, k), side, levels[0].price, levels[0].qty) == Added(b.With(side.Opposite(), m.queue), m.fills, 0)
             && RefinesWalk(b.With(side.Opposite(), m.queue), orderId, side, levels[1..], k + 1, remaining - levels[0].qty)
             && Continues(b.Queue(side.Opposite()), side, levels[0].qty, SweepQty(levels[1..], remaining - levels[0].qty))
    ensures RefinesWalk(b, orderId, side, levels, k, remaining)
  {
    hide Add, Match, Levels;
    var opp, take := side.Opposite(), levels[0].qty;
    var m := Match(b.Queue(opp), side, None, take);
    var b1 := b.With(opp, m.queue);
    var more := SweepQty(levels[1..], remaining - take);
    var t := Match(m.queue, side, None, more);
    QueueOfWith(b, opp, m.queue, t.queue);
    assert SweepQty(levels, remaining) == take + more;
    assert WalkOutcome(b1, side, more, remaining - take) == Swept(b.With(opp, t.queue), t.fills, remaining - take - more, false);
    assert WalkOutcome(b, side, take + more, remaining) == Swept(b.With(opp, t.queue), m.fills + t.fills, remaining - take - more, false);
    SweepUnfold(b, orderId, side, levels, k, remaining, b1, m.fills);
    assert Min(take, remaining) == take;
    assert Sweep(b1, orderId, side, levels[1..], k + 1, remaining - take) == WalkOutcome(b1, side, more, remaining - take);
    assert Sweep(b, orderId, side, levels, k, remaining) == WalkOutcome(b, side, take + more, remaining);
    assert Match(b.Queue(opp), side, None, take + more).leave == 0;
  }

  lemma SweepLast(b: Book, orderId: nat, side: Side, levels: seq<Level>, k: nat, remaining: int)
    requires levels != [] && 0 < remaining <= levels[0].qty && LevelTotal(levels[1..]) >= 0
    requires var m := Match(b.Queue(side.Opposite()), side, None, remaining);
             && m.leave == 0
             && Add(b, SweepId(orderId, k), side, levels[0].price, remaining) == Added(b.With(side.Opposite(), m.queue), m.fills, 0)
    ensures RefinesWalk(b, orderId, side, levels, k, remaining)
  {
  }

  /** The levels of a snapshot hold something, and so do any of them together. */
  lemma ListedLevelsPositive(side: Side, q: seq<Entry>, levels: seq<Level>)
    requires QueueOk(side.Opposite(), q) && levels <= Levels(q)
    ensures Positive(q) && LevelTotal(levels) >= 0 && (levels != [] ==> levels[0].qty > 0 && LevelTotal(levels[1..]) >= 0 && q != [])
  {
    LevelsPositive(q);
    LevelTotalNonNegative(levels);
    if levels != [] {
      LevelTotalNonNegative(levels[1..]);
    }
  }

  lemma SweepDone(b: Book, orderId: nat, side: Side, levels: seq<Level>, k: nat, remaining: int)
    requires (levels == [] || remaining <= 0) && remaining >= 0 && LevelTotal(levels) >= 0
    ensures RefinesWalk(b, orderId, side, levels, k, remaining)
  {
    assert b.With(side.Opposite(), b.Queue(side.Opposite())) == b;
  }

  lemma FirstIdFree(b: Book, orderId: nat, side: Side, levels: seq<Level>, k: nat, remaining: int)
    requires levels != [] && remaining > 0 && !Sweep(b, orderId, side, levels, k, remaining).refused
    ensures !InBook(b, SweepId(orderId, k))
  {
  }

  /**
   The sweep refines one direct walk through the opposing queue: the same
   trades, in the same order, the same queue afterwards, exactly
   min(quantity, depth of the listed levels) filled and nothing of its own left
   resting.
   */
  lemma {:induction false} SweepRefinesWalk(b: Book, orderId: nat, side: Side, levels: seq<Level>, k: nat, remaining: int)
    requires QueueOk(side.Opposite(), b.Queue(side.Opposite())) && remaining >= 0
    requires levels <= Levels(b.Queue(side.Opposite()))
    requires !Sweep(b, orderId, side, levels, k, remaining).refused
    ensures RefinesWalk(b, orderId, side, levels, k, remaining)
    decreases |levels|
  {
    hide Sweep, Match, Add, QueueOk, Levels, RefinesWalk, Continues;
    var q := b.Queue(side.Opposite());
    ListedLevelsPositive(side, q, levels);
    if levels == [] || remaining <= 0 {
      SweepDone(b, orderId, side, levels, k, remaining);
    } else {
      FirstIdFree(b, orderId, side, levels, k, remaining);
      SweepStep(b, orderId, side, levels, k, remaining);
      if remaining <= levels[0].qty {
        SweepLast(b, orderId, side, levels, k, remaining);
      } else {
        PrefixTail(levels, Levels(q));
        var m := Match(q, side, None, levels[0].qty);
        var b1 := b.With(side.Opposite(), m.queue);
        SweepUnfold(b, orderId, side, levels, k, remaining, b1, m.fills);
        SweepRefinesWalk(b1, orderId, side, levels[1..], k + 1, remaining - levels[0].qty);
        WalkSplitsAtLevel(q, side, SweepQty(levels[1..], remaining - levels[0].qty));
        SweepPrepend(b, orderId, side, levels, k, remaining);
      }
    }
  }

  /** For real order ids below 10^9 the synthetic ids are exact doubles, distinct, and never real ids. */
  lemma SweepIdsDistinct(a: nat, i: nat, b: nat, j: nat)
    requires a < SWEEP_OFFSET && b < SWEEP_OFFSET && 0 < a && 0 < b
    requires i < DEPTH_LIMIT && j < DEPTH_LIMIT
    ensures SweepId(a, i) == SweepId(b, j) ==> a == b && i == j
    ensures SweepId(a, i) > SWEEP_OFFSET > b
    ensures SweepId(a, i) < 0x20_0000_0000_0000
  {
  }
}
