/**
 One-minute candles from batches of trades, and the higher intervals derived
 from them on reading. Times are seconds for candles and milliseconds for
 trades.
 */
module Candles {
  import opened Wrappers

  const M1: int := 60

  datatype Trade = Trade(market: string, price: int, qty: int, ts: int)

  datatype Candle = Candle(open: int, high: int, low: int, close: int, volume: int)

  datatype Key = Key(market: string, openTime: int)

  function FloorTo(seconds: int, interval: int): int
    requires interval > 0
  {
    seconds / interval * interval
  }

  function Minute(t: Trade): int {
    FloorTo(t.ts / 1000, M1)
  }

  function KeyOf(t: Trade): Key {
    Key(t.market, Minute(t))
  }

  // ------------------------------------------------------------ specification

  function MaxOf(a: int, b: int): int {
    if a >= b then a else b
  }

  function MinOf(a: int, b: int): int {
    if a <= b then a else b
  }

  function Single(t: Trade): Candle {
    Candle(t.price, t.price, t.price, t.price, t.qty)
  }

  function Extend(c: Candle, t: Trade): Candle {
    Candle(c.open, MaxOf(c.high, t.price), MinOf(c.low, t.price), t.price, c.volume + t.qty)
  }

  /** The candle of a non-empty sequence of trades. */
  function Ohlcv(ts: seq<Trade>): Candle
    requires ts != []
  {
    if |ts| == 1 then Single(ts[0]) else Extend(Ohlcv(ts[..|ts| - 1]), ts[|ts| - 1])
  }

  function Volume(ts: seq<Trade>): int {
    if ts == [] then 0 else Volume(ts[..|ts| - 1]) + ts[|ts| - 1].qty
  }

  /** First price, largest, smallest and last price, sum of quantities. */
  ghost predicate IsCandleOf(c: Candle, ts: seq<Trade>) {
    && ts != []
    && c.open == ts[0].price && c.close == ts[|ts| - 1].price
    && (forall i :: 0 <= i < |ts| ==> c.low <= ts[i].price <= c.high)
    && (exists i :: 0 <= i < |ts| && ts[i].price == c.high)
    && (exists i :: 0 <= i < |ts| && ts[i].price == c.low)
    && c.volume == Volume(ts)
  }

  lemma {:induction false} OhlcvMeans(ts: seq<Trade>)
    requires ts != []
    ensures IsCandleOf(Ohlcv(ts), ts)
    decreases |ts|
  {
    if |ts| == 1 {
      assert ts[0].price == Ohlcv(ts).high && Volume(ts[..0]) == 0;
    } else {
      var init, last := ts[..|ts| - 1], ts[|ts| - 1];
      OhlcvMeans(init);
      var c := Ohlcv(init);
      var i :| 0 <= i < |init| && init[i].price == c.high;
      var j :| 0 <= j < |init| && init[j].price == c.low;
      assert ts[i].price == c.high && ts[j].price == c.low && ts[|ts| - 1] == last;
    }
  }

  /** There is one such candle. */
  lemma CandleIsUnique(c: Candle, ts: seq<Trade>)
    requires ts != []
    ensures IsCandleOf(c, ts) <==> c == Ohlcv(ts)
  {
    OhlcvMeans(ts);
  }

  /** A trade belongs to the minute its time stamp, in milliseconds, falls in. */
  lemma MinuteOfTrade(t: Trade)
    ensures KeyOf(t).market == t.market && KeyOf(t).openTime % 60 == 0
    ensures KeyOf(t).openTime * 1000 <= t.ts < (KeyOf(t).openTime + 60) * 1000
  {
  }

  /** The trades of one candle, in stream order. */
  function Of(ts: seq<Trade>, k: Key): seq<Trade> {
    if ts == [] then []
    else Of(ts[..|ts| - 1], k) + if KeyOf(ts[|ts| - 1]) == k then [ts[|ts| - 1]] else []
  }

  function Keys(ts: seq<Trade>): set<Key> {
    set t | t in ts :: KeyOf(t)
  }

  lemma OfAppend(ts: seq<Trade>, t: Trade, k: Key)
    ensures Of(ts + [t], k) == Of(ts, k) + if KeyOf(t) == k then [t] else []
  {
    assert (ts + [t])[..|ts|] == ts;
  }

  lemma {:induction false} OfNonEmpty(ts: seq<Trade>, k: Key)
    ensures Of(ts, k) != [] <==> k in Keys(ts)
    decreases |ts|
  {
    if ts != [] {
      var init, last := ts[..|ts| - 1], ts[|ts| - 1];
      OfNonEmpty(init, k);
      assert ts == init + [last];
      assert Keys(ts) == Keys(init) + {KeyOf(last)};
    }
  }

  /** The per-minute candles of a stream. */
  ghost function Buckets(ts: seq<Trade>): map<Key, Candle> {
    map k | k in Keys(ts) && Of(ts, k) != [] :: Ohlcv(Of(ts, k))
  }

  lemma BucketAt(ts: seq<Trade>, k: Key)
    ensures k in Buckets(ts) <==> Of(ts, k) != []
    ensures k in Buckets(ts) ==> Buckets(ts)[k] == Ohlcv(Of(ts, k))
  {
    OfNonEmpty(ts, k);
  }

  lemma OhlcvOfAppend(ts: seq<Trade>, t: Trade)
    ensures Ohlcv(ts + [t]) == if ts == [] then Single(t) else Extend(Ohlcv(ts), t)
  {
    assert (ts + [t])[..|ts|] == ts;
  }

  lemma BucketsAppendAt(ts: seq<Trade>, t: Trade, x: Key)
    ensures var k := KeyOf(t); var b := Buckets(ts); var b1 := b[k := if k in b then Extend(b[k], t) else Single(t)];
            (x in Buckets(ts + [t]) <==> x in b1) && (x in b1 ==> Buckets(ts + [t])[x] == b1[x])
  {
    BucketAt(ts, x);
    BucketAt(ts + [t], x);
    OfAppend(ts, t, x);
    hide Buckets, Of, Ohlcv;
    if x == KeyOf(t) {
      OhlcvOfAppend(Of(ts, x), t);
    } else {
      assert Of(ts, x) + [] == Of(ts, x);
    }
  }

  lemma BucketsAppend(ts: seq<Trade>, t: Trade)
    ensures var k := KeyOf(t); var b := Buckets(ts);
            Buckets(ts + [t]) == b[k := if k in b then Extend(b[k], t) else Single(t)]
  {
    hide Buckets, KeyOf;
    var k, b := KeyOf(t), Buckets(ts);
    var b1 := b[k := if k in b then Extend(b[k], t) else Single(t)];
    forall x ensures (x in Buckets(ts + [t]) <==> x in b1) && (x in b1 ==> Buckets(ts + [t])[x] == b1[x]) {
      BucketsAppendAt(ts, t, x);
    }
  }

  // --------------------------------------------------------------- the worker

  type Table = map<Key, Candle>

  /** One upsert: an existing row keeps its `open` and is otherwise overwritten. */
  function Upsert(table: Table, k: Key, b: Candle): Table {
    table[k := if k in table then b.(open := table[k].open) else b]
  }

  /** All upserts of a batch in one transaction. */
  function Flush(table: Table, buckets: map<Key, Candle>): Table {
    map k | k in table.Keys + buckets.Keys ::
      if k !in buckets then table[k]
      else if k in table then buckets[k].(open := table[k].open) else buckets[k]
  }

  lemma NothingToUpsert(table: Table)
    ensures Flush(table, map[]) == table
  {
  }

  lemma OneMoreUpsert(table: Table, done: map<Key, Candle>, k: Key, b: Candle)
    requires k !in done
    ensures Upsert(Flush(table, done), k, b) == Flush(table, done[k := b])
  {
  }

  /** A message of the batch: None when it has no value, cannot be read or is not a trade. */
  type Message = Option<Trade>

  function TradesOf(ms: seq<Message>): seq<Trade> {
    if ms == [] then []
    else TradesOf(ms[..|ms| - 1]) + match ms[|ms| - 1] case None => [] case Some(t) => [t]
  }

  /** The readable trades of a batch, in order. */
  lemma {:induction false} TradesOfConcat(a: seq<Message>, b: seq<Message>)
    ensures TradesOf(a + b) == TradesOf(a) + TradesOf(b)
    ensures forall t :: TradesOf([Some(t)]) == [t]
    ensures TradesOf([None]) == []
    decreases |b|
  {
    if b == [] {
      assert a + b == a;
    } else {
      assert (a + b)[..|a + b| - 1] == a + b[..|b| - 1];
      TradesOfConcat(a, b[..|b| - 1]);
    }
    forall t ensures TradesOf([Some(t)]) == [t] {
      assert [Some(t)][..0] == [];
    }
    var none: Message := None;
    assert [none][..0] == [];
  }

  class CandleAggregator {
    var table: Table
    var committed: nat   // offset of the next batch

    constructor ()
      ensures table == map[] && committed == 0
    {
      table, committed := map[], 0;
    }

    /** One trade of the batch: make the bucket if it is new, then update it. */
    method Absorb(buckets: map<Key, Candle>, trade: Trade) returns (updated: map<Key, Candle>)
      ensures var k := KeyOf(trade);
              updated == buckets[k := if k in buckets then Extend(buckets[k], trade) else Single(trade)]
    {
      var key := KeyOf(trade);
      var b := Candle(trade.price, trade.price, trade.price, trade.price, 0);
      if key in buckets {
        b := buckets[key];
      }
      b := b.(high := MaxOf(b.high, trade.price));
      b := b.(low := MinOf(b.low, trade.price));
      b := b.(close := trade.price);
      b := b.(volume := b.volume + trade.qty);
      updated := buckets[key := b];
    }

    /** The bucket map of the messages handled before the consumer is told to stop. */
    method Aggregate(messages: seq<Message>, stopAfter: nat) returns (buckets: map<Key, Candle>, handled: nat)
      ensures handled == if stopAfter < |messages| then stopAfter else |messages|
      ensures buckets == Buckets(TradesOf(messages[..handled]))
    {
      hide Buckets, KeyOf;
      buckets := map[];
      handled := 0;
      EmptyBuckets([]);
      while handled < |messages| && handled < stopAfter
        invariant handled <= |messages| && handled <= stopAfter
        invariant buckets == Buckets(TradesOf(messages[..handled]))
      {
        ghost var before := TradesOf(messages[..handled]);
        assert messages[..handled + 1][..handled] == messages[..handled];
        if messages[handled].Some? {
          BucketsAppend(before, messages[handled].value);
          buckets := Absorb(buckets, messages[handled].value);
        } else {
          assert before + [] == before;
        }
        handled := handled + 1;
      }
    }

    /** The upserts, in any order of the buckets. */
    method UpsertAll(buckets: map<Key, Candle>)
      modifies `table
      ensures table == Flush(old(table), buckets)
    {
      hide Flush, Upsert;
      var rest := buckets.Keys;
      NothingToUpsert(table);
      assert buckets - rest == map[];
      while rest != {}
        invariant rest <= buckets.Keys
        invariant table == Flush(old(table), buckets - rest)
        decreases |rest|
      {
        var k :| k in rest;
        ghost var done := buckets - rest;
        OneMoreUpsert(old(table), done, k, buckets[k]);
        table := Upsert(table, k, buckets[k]);
        rest := rest - {k};
        assert buckets - rest == done[k := buckets[k]];
      }
      assert buckets - {} == buckets;
    }

    /** `eachBatch`: the offset moves only after the transaction committed. */
    method EachBatch(messages: seq<Message>, stopAfter: nat, commits: bool) returns (ok: bool)
      modifies this
      ensures var handled := if stopAfter < |messages| then stopAfter else |messages|;
              var trades := TradesOf(messages[..handled]);
              && ok == (commits || trades == [])
              && (ok ==> committed == old(committed) + handled && table == Flush(old(table), Buckets(trades)))
              && (!ok ==> committed == old(committed) && table == old(table))
    {
      var buckets, handled := Aggregate(messages, stopAfter);
      EmptyBuckets(TradesOf(messages[..handled]));
      if buckets == map[] {
        assert Flush(table, buckets) == table;
        committed := committed + handled;
        return true;
      }
      if !commits {
        return false;
      }
      UpsertAll(buckets);
      committed := committed + handled;
      ok := true;
    }
  }

  lemma EmptyBuckets(ts: seq<Trade>)
    ensures Buckets(ts) == map[] <==> ts == []
  {
    if ts != [] {
      assert KeyOf(ts[0]) in Keys(ts);
      OfNonEmpty(ts, KeyOf(ts[0]));
      assert KeyOf(ts[0]) in Buckets(ts);
    }
  }

  // ----------------------------------------------------------------- batches

  /** Processing the same batch again changes nothing. */
  lemma ReprocessingIsIdempotent(table: Table, ts: seq<Trade>)
    ensures Flush(Flush(table, Buckets(ts)), Buckets(ts)) == Flush(table, Buckets(ts))
  {
  }

  function Concat(bs: seq<seq<Trade>>): seq<Trade> {
    if bs == [] then [] else Concat(bs[..|bs| - 1]) + bs[|bs| - 1]
  }

  /** Each batch is processed once and then any number of times again before the next one. */
  ghost function Process(bs: seq<seq<Trade>>, again: seq<nat>): Table
    requires |again| == |bs|
  {
    if bs == [] then map[]
    else Repeat(Process(bs[..|bs| - 1], again[..|bs| - 1]), bs[|bs| - 1], 1 + again[|bs| - 1])
  }

  ghost function Repeat(table: Table, b: seq<Trade>, n: nat): Table {
    if n == 0 then table else Flush(Repeat(table, b, n - 1), Buckets(b))
  }

  lemma {:induction false} RepeatIsOnce(table: Table, b: seq<Trade>, n: nat)
    requires n > 0
    ensures Repeat(table, b, n) == Flush(table, Buckets(b))
    decreases n
  {
    if n == 1 {
      assert Repeat(table, b, 0) == table;
    } else {
      RepeatIsOnce(table, b, n - 1);
      ReprocessingIsIdempotent(table, b);
    }
  }

  /** The minute has trades in one batch at most. */
  ghost predicate InOneBatch(bs: seq<seq<Trade>>, k: Key) {
    forall i, j :: 0 <= i < j < |bs| ==> !(k in Keys(bs[i]) && k in Keys(bs[j]))
  }

  /** No minute has trades in two batches. */
  ghost predicate MinutesApart(bs: seq<seq<Trade>>) {
    forall k :: InOneBatch(bs, k)
  }

  lemma {:induction false} OfConcat(a: seq<Trade>, b: seq<Trade>, k: Key)
    ensures Of(a + b, k) == Of(a, k) + Of(b, k)
    decreases |b|
  {
    if b == [] {
      assert a + b == a;
    } else {
      var init, last := b[..|b| - 1], b[|b| - 1];
      assert a + b == (a + init) + [last] && b == init + [last];
      OfConcat(a, init, k);
      OfAppend(a + init, last, k);
      OfAppend(init, last, k);
    }
  }

  lemma {:induction false} ConcatKeys(bs: seq<seq<Trade>>, k: Key)
    ensures k in Keys(Concat(bs)) <==> exists i :: 0 <= i < |bs| && k in Keys(bs[i])
    decreases |bs|
  {
    if bs != [] {
      var init, last := bs[..|bs| - 1], bs[|bs| - 1];
      ConcatKeys(init, k);
      assert Keys(Concat(bs)) == Keys(Concat(init)) + Keys(last);
      if k in Keys(Concat(init)) {
        var i :| 0 <= i < |init| && k in Keys(init[i]);
        assert k in Keys(bs[i]);
      }
      if i :| 0 <= i < |bs| && k in Keys(bs[i]) {
        if i < |init| {
          assert k in Keys(init[i]);
        }
      }
    }
  }

  /** What the last batch does to one row. */
  lemma LastBatch(bs: seq<seq<Trade>>, again: seq<nat>, k: Key)
    requires |again| == |bs| && bs != []
    ensures var before := Process(bs[..|bs| - 1], again[..|bs| - 1]); var last := bs[|bs| - 1];
            var now := Process(bs, again);
            && (k in now <==> k in before || k in Keys(last))
            && (k in before && k !in Keys(last) ==> now[k] == before[k])
            && (k in Keys(last) ==> Of(last, k) != [] && now[k] == (if k in before then Ohlcv(Of(last, k)).(open := before[k].open) else Ohlcv(Of(last, k))))
  {
    var last := bs[|bs| - 1];
    RepeatIsOnce(Process(bs[..|bs| - 1], again[..|bs| - 1]), last, 1 + again[|bs| - 1]);
    BucketAt(last, k);
    OfNonEmpty(last, k);
  }

  /** The trades of one row before and in the last batch. */
  lemma ConcatLast(bs: seq<seq<Trade>>, k: Key)
    requires bs != []
    ensures Of(Concat(bs), k) == Of(Concat(bs[..|bs| - 1]), k) + Of(bs[|bs| - 1], k)
    ensures InOneBatch(bs, k) <==> InOneBatch(bs[..|bs| - 1], k) && !(k in Keys(Concat(bs[..|bs| - 1])) && k in Keys(bs[|bs| - 1]))
  {
    var init := bs[..|bs| - 1];
    OfConcat(Concat(init), bs[|bs| - 1], k);
    ConcatKeys(init, k);
    if InOneBatch(bs, k) {
      forall i, j | 0 <= i < j < |init| ensures !(k in Keys(init[i]) && k in Keys(init[j])) {
        assert init[i] == bs[i] && init[j] == bs[j];
      }
    }
    if InOneBatch(init, k) && !(k in Keys(Concat(init)) && k in Keys(bs[|bs| - 1])) {
      forall i, j | 0 <= i < j < |bs| ensures !(k in Keys(bs[i]) && k in Keys(bs[j])) {
        assert bs[i] == init[i];
        if j < |init| {
          assert bs[j] == init[j];
        }
      }
    }
  }

  /** A row whose minute lies in one batch is right, whatever the quantities and however often batches are replayed. */
  lemma {:induction false} RowRight(bs: seq<seq<Trade>>, again: seq<nat>, k: Key)
    requires |again| == |bs| && InOneBatch(bs, k)
    ensures k in Process(bs, again) <==> Of(Concat(bs), k) != []
    ensures k in Process(bs, again) ==> Process(bs, again)[k] == Ohlcv(Of(Concat(bs), k))
    decreases |bs|
  {
    if bs != [] {
      var init, last := bs[..|bs| - 1], bs[|bs| - 1];
      LastBatch(bs, again, k);
      ConcatLast(bs, k);
      OfNonEmpty(Concat(init), k);
      OfNonEmpty(last, k);
      RowRight(init, again[..|bs| - 1], k);
      if k in Keys(last) {
        assert [] + Of(last, k) == Of(last, k);
      } else {
        assert Of(Concat(init), k) + [] == Of(Concat(init), k);
      }
    }
  }

  ghost predicate AllPositive(ts: seq<Trade>) {
    forall t :: t in ts ==> t.qty > 0
  }

  lemma {:induction false} VolumeConcat(a: seq<Trade>, b: seq<Trade>)
    ensures Volume(a + b) == Volume(a) + Volume(b)
    decreases |b|
  {
    if b == [] {
      assert a + b == a;
    } else {
      assert (a + b)[..|a + b| - 1] == a + b[..|b| - 1];
      VolumeConcat(a, b[..|b| - 1]);
    }
  }

  lemma {:induction false} VolumePositive(ts: seq<Trade>)
    requires AllPositive(ts)
    ensures Volume(ts) >= 0 && (ts != [] ==> Volume(ts) > 0)
    decreases |ts|
  {
    if ts != [] {
      assert ts[|ts| - 1] in ts;
      VolumePositive(ts[..|ts| - 1]);
    }
  }

  lemma {:induction false} OfMembers(ts: seq<Trade>, k: Key)
    ensures forall t :: t in Of(ts, k) ==> t in ts
    decreases |ts|
  {
    if ts != [] {
      OfMembers(ts[..|ts| - 1], k);
    }
  }

  /** A row never shows more than was traded, and less once its minute has lain in two batches. */
  lemma {:induction false} RowShort(bs: seq<seq<Trade>>, again: seq<nat>, k: Key)
    requires |again| == |bs| && AllPositive(Concat(bs))
    ensures k in Process(bs, again) <==> Of(Concat(bs), k) != []
    ensures k in Process(bs, again) ==> Process(bs, again)[k].volume <= Volume(Of(Concat(bs), k))
    ensures !InOneBatch(bs, k) ==> k in Process(bs, again) && Process(bs, again)[k].volume < Volume(Of(Concat(bs), k))
    decreases |bs|
  {
    if bs != [] {
      var init, last := bs[..|bs| - 1], bs[|bs| - 1];
      assert forall t :: t in Concat(bs) <==> t in Concat(init) || t in last;
      LastBatch(bs, again, k);
      ConcatLast(bs, k);
      OfNonEmpty(Concat(init), k);
      OfNonEmpty(last, k);
      RowShort(init, again[..|bs| - 1], k);
      OfMembers(Concat(init), k);
      VolumePositive(Of(Concat(init), k));
      VolumeConcat(Of(Concat(init), k), Of(last, k));
      if k in Keys(last) {
        OhlcvMeans(Of(last, k));
      }
    }
  }

  /**
   Trades have positive quantities. The table then holds exactly the candles of
   the whole stream if and only if no minute has trades in two batches, for any
   number of batches and any number of replays of each.
   */
  lemma TableIsExact(bs: seq<seq<Trade>>, again: seq<nat>)
    requires |again| == |bs| && AllPositive(Concat(bs))
    ensures Process(bs, again) == Buckets(Concat(bs)) <==> MinutesApart(bs)
  {
    hide Process, Of, Ohlcv, Buckets, InOneBatch, Concat;
    var table, spec := Process(bs, again), Buckets(Concat(bs));
    forall k ensures (k in table <==> k in spec) && (k in spec ==> (table[k] == spec[k] <==> InOneBatch(bs, k))) {
      RowIsExact(bs, again, k);
    }
    if table == spec {
      forall k ensures InOneBatch(bs, k) {
        RowIsExact(bs, again, k);
      }
    }
  }

  /** And row by row: a row is right if and only if its minute lies in one batch. */
  lemma RowIsExact(bs: seq<seq<Trade>>, again: seq<nat>, k: Key)
    requires |again| == |bs| && AllPositive(Concat(bs))
    ensures k in Process(bs, again) <==> k in Buckets(Concat(bs))
    ensures k in Buckets(Concat(bs)) ==> (Process(bs, again)[k] == Buckets(Concat(bs))[k] <==> InOneBatch(bs, k))
    ensures !InOneBatch(bs, k) ==> k in Buckets(Concat(bs))
  {
    hide Process, InOneBatch, Concat;
    BucketAt(Concat(bs), k);
    RowShort(bs, again, k);
    if InOneBatch(bs, k) {
      RowRight(bs, again, k);
    } else {
      OhlcvMeans(Of(Concat(bs), k));
    }
  }

  /** A candle followed by a later one. */
  function Merge(c: Candle, d: Candle): Candle {
    Candle(c.open, MaxOf(c.high, d.high), MinOf(c.low, d.low), d.close, c.volume + d.volume)
  }

  lemma {:induction false} OhlcvConcat(a: seq<Trade>, b: seq<Trade>)
    requires a != [] && b != []
    ensures Ohlcv(a + b) == Merge(Ohlcv(a), Ohlcv(b))
    decreases |b|
  {
    var init, last := b[..|b| - 1], b[|b| - 1];
    assert (a + b)[..|a + b| - 1] == a + init && (a + b)[|a + b| - 1] == last;
    if |b| == 1 {
      assert a + init == a;
    } else {
      OhlcvConcat(a, init);
    }
  }

  /**
   Whatever the quantities, a row that is right for the stream so far stays right
   under a further batch of its minute exactly if the trades so far set neither
   the high nor the low and had no volume.
   */
  lemma SplitMinute(table: Table, a: seq<Trade>, b: seq<Trade>, k: Key)
    requires k in Keys(a) && k in Keys(b) && Of(a, k) != [] && k in table && table[k] == Ohlcv(Of(a, k))
    ensures Of(b, k) != [] && Of(a + b, k) != [] && k in Flush(table, Buckets(b))
    ensures Flush(table, Buckets(b))[k] == Ohlcv(Of(a + b, k)) <==>
              && Ohlcv(Of(a, k)).high <= Ohlcv(Of(b, k)).high && Ohlcv(Of(a, k)).low >= Ohlcv(Of(b, k)).low
              && Volume(Of(a, k)) == 0
  {
    BucketAt(b, k);
    OfNonEmpty(b, k);
    OfConcat(a, b, k);
    hide Buckets, Of, Keys, Ohlcv;
    OhlcvConcat(Of(a, k), Of(b, k));
    OhlcvMeans(Of(a, k));
    SplitRight(Ohlcv(Of(a, k)), Ohlcv(Of(b, k)));
  }

  lemma SplitRight(c: Candle, d: Candle)
    ensures d.(open := c.open) == Merge(c, d) <==> c.high <= d.high && c.low >= d.low && c.volume == 0
  {
  }

  // --------------------------------------------------------- higher intervals

  /** A row of the candle table of one market. */
  datatype Row = Row(openTime: int, candle: Candle)

  ghost predicate Ascending(rows: seq<Row>) {
    forall i, j :: 0 <= i < j < |rows| ==> rows[i].openTime < rows[j].openTime
  }

  /** The bucket map in insertion order, as the reading loop builds it. */
  function Fold(rows: seq<Row>, interval: int): seq<Row>
    requires interval > 0
  {
    if rows == [] then []
    else Absorb(Fold(rows[..|rows| - 1], interval), Row(FloorTo(rows[|rows| - 1].openTime, interval), rows[|rows| - 1].candle))
  }

  /** Position of the bucket with this time, |bs| if there is none. */
  function Find(bs: seq<Row>, time: int): (n: nat)
    ensures n <= |bs| && (n < |bs| ==> bs[n].openTime == time)
    ensures forall i :: 0 <= i < n ==> bs[i].openTime != time
  {
    if bs == [] || bs[0].openTime == time then 0 else 1 + Find(bs[1..], time)
  }

  function Absorb(bs: seq<Row>, r: Row): seq<Row> {
    var n := Find(bs, r.openTime);
    if n == |bs| then bs + [r] else bs[n := Row(r.openTime, Merge(bs[n].candle, r.candle))]
  }

  function InsertRow(bs: seq<Row>, r: Row): seq<Row> {
    if bs == [] || r.openTime < bs[0].openTime then [r] + bs else [bs[0]] + InsertRow(bs[1..], r)
  }

  /** Stable sort by openTime. */
  function SortRows(bs: seq<Row>): seq<Row> {
    if bs == [] then [] else InsertRow(SortRows(bs[1..]), bs[0])
  }

  /** `slice(-take)`. */
  function LastOf<T>(s: seq<T>, take: nat): seq<T> {
    if take == 0 || take >= |s| then s else s[|s| - take..]
  }

  /** The starts of the buckets that have rows. */
  function BucketTimes(rows: seq<Row>, interval: int): set<int>
    requires interval > 0
  {
    set i | 0 <= i < |rows| :: FloorTo(rows[i].openTime, interval)
  }

  /**
   The newest buckets, oldest first, each with the candle of its rows: `take` of
   them, all if there are fewer or `take` is zero, and whatever is left out is
   older than whatever is returned.
   */
  ghost predicate NewestBuckets(rows: seq<Row>, interval: int, take: nat, out: seq<Row>)
    requires interval > 0
  {
    var times := BucketTimes(rows, interval);
    && Ascending(out)
    && |out| == (if take == 0 || |times| < take then |times| else take)
    && (forall i :: 0 <= i < |out| ==> out[i].openTime in times && Merged(rows, interval, out[i].openTime) == Some(out[i].candle))
    && (forall t :: t in times && t !in TimesOf(out) ==> OlderThanAll(t, out))
    && (out != [] ==> out[|out| - 1].openTime in times && forall t :: t in times ==> t <= out[|out| - 1].openTime)
  }

  predicate OlderThanAll(t: int, out: seq<Row>) {
    forall i :: 0 <= i < |out| ==> t < out[i].openTime
  }

  function TimesOf(bs: seq<Row>): set<int> {
    set i | 0 <= i < |bs| :: bs[i].openTime
  }

  ghost predicate Distinct(bs: seq<Row>) {
    forall i, j :: 0 <= i < j < |bs| ==> bs[i].openTime != bs[j].openTime
  }

  lemma AbsorbTimes(bs: seq<Row>, r: Row)
    requires Distinct(bs)
    ensures Distinct(Absorb(bs, r)) && TimesOf(Absorb(bs, r)) == TimesOf(bs) + {r.openTime}
  {
    var n, out := Find(bs, r.openTime), Absorb(bs, r);
    if n < |bs| {
      assert forall i :: 0 <= i < |bs| ==> out[i].openTime == bs[i].openTime;
    } else {
      assert forall i :: 0 <= i < |bs| ==> out[i] == bs[i];
      assert out[|bs|] == r;
    }
  }

  lemma {:induction false} FoldTimes(rows: seq<Row>, interval: int)
    requires interval > 0
    ensures Distinct(Fold(rows, interval)) && TimesOf(Fold(rows, interval)) == BucketTimes(rows, interval)
    decreases |rows|
  {
    hide Absorb, FloorTo;
    if rows != [] {
      var init, last := rows[..|rows| - 1], rows[|rows| - 1];
      FoldTimes(init, interval);
      AbsorbTimes(Fold(init, interval), Row(FloorTo(last.openTime, interval), last.candle));
      assert BucketTimes(rows, interval) == BucketTimes(init, interval) + {FloorTo(last.openTime, interval)} by {
        assert forall i :: 0 <= i < |init| ==> rows[i] == init[i];
      }
    }
  }

  lemma {:induction false} InsertAscends(s: seq<Row>, r: Row)
    requires Ascending(s) && r.openTime !in TimesOf(s)
    ensures Ascending(InsertRow(s, r)) && forall x :: x in InsertRow(s, r) <==> x == r || x in s
    decreases |s|
  {
    if s != [] && r.openTime >= s[0].openTime {
      assert s[0].openTime in TimesOf(s);
      forall t | t in TimesOf(s[1..]) ensures t in TimesOf(s) {
        var i :| 0 <= i < |s[1..]| && s[1..][i].openTime == t;
        assert s[i + 1].openTime == t;
      }
      InsertAscends(s[1..], r);
      var rest := InsertRow(s[1..], r);
      forall i | 0 <= i < |rest| ensures s[0].openTime < rest[i].openTime {
        assert rest[i] in rest;
      }
      assert s == [s[0]] + s[1..];
    }
  }

  /** Sorting puts distinct buckets in order and keeps them all. */
  lemma {:induction false} SortAscends(bs: seq<Row>)
    requires Distinct(bs)
    ensures Ascending(SortRows(bs)) && forall x :: x in SortRows(bs) <==> x in bs
    decreases |bs|
  {
    if bs != [] {
      SortAscends(bs[1..]);
      var rest := SortRows(bs[1..]);
      forall t | t in TimesOf(rest) ensures t != bs[0].openTime {
        var i :| 0 <= i < |rest| && rest[i].openTime == t;
        assert rest[i] in rest;
        var j :| 0 <= j < |bs[1..]| && bs[1..][j] == rest[i];
        assert bs[j + 1] == rest[i];
      }
      InsertAscends(rest, bs[0]);
      assert bs == [bs[0]] + bs[1..];
    }
  }

  lemma {:induction false} AscendingCount(bs: seq<Row>)
    requires Ascending(bs)
    ensures |TimesOf(bs)| == |bs|
    decreases |bs|
  {
    if bs != [] {
      var init, last := bs[..|bs| - 1], bs[|bs| - 1];
      AscendingCount(init);
      assert TimesOf(bs) == TimesOf(init) + {last.openTime} by {
        assert forall i :: 0 <= i < |init| ==> bs[i] == init[i];
      }
      assert last.openTime !in TimesOf(init);
    }
  }

  lemma SameTimesOf(a: seq<Row>, b: seq<Row>)
    requires forall x :: x in a <==> x in b
    ensures TimesOf(a) == TimesOf(b)
  {
    forall t ensures t in TimesOf(a) <==> t in TimesOf(b) {
      if t in TimesOf(a) {
        var i :| 0 <= i < |a| && a[i].openTime == t;
        assert a[i] in b;
      }
      if t in TimesOf(b) {
        var i :| 0 <= i < |b| && b[i].openTime == t;
        assert b[i] in a;
      }
    }
  }

  /** A bucket of the map has the merged rows of its interval. */
  lemma BucketCandle(rows: seq<Row>, interval: int, b: Row)
    requires interval > 0 && b in Fold(rows, interval)
    ensures Merged(rows, interval, b.openTime) == Some(b.candle)
  {
    FoldTimes(rows, interval);
    FoldMerges(rows, interval, b.openTime);
    hide Fold, Merged;
    var bs := Fold(rows, interval);
    var i :| 0 <= i < |bs| && bs[i] == b;
    var n := Find(bs, b.openTime);
    assert n == i;
  }

  lemma HasTime(bs: seq<Row>, t: int) returns (n: nat)
    requires t in TimesOf(bs)
    ensures n < |bs| && bs[n].openTime == t
  {
    n :| 0 <= n < |bs| && bs[n].openTime == t;
  }

  /** What is cut off an ascending list is older than the rest. */
  lemma CutIsOlder(sorted: seq<Row>, cut: nat, t: int)
    requires Ascending(sorted) && cut <= |sorted| && t in TimesOf(sorted)
    ensures t !in TimesOf(sorted[cut..]) ==> OlderThanAll(t, sorted[cut..])
    ensures cut < |sorted| ==> t <= sorted[|sorted| - 1].openTime
  {
    hide TimesOf;
    var n := HasTime(sorted, t);
    if n >= cut {
      assert sorted[cut..][n - cut] == sorted[n];
      TimeOfMember(sorted[cut..], sorted[n]);
    }
  }

  /** The last `take` of an ascending list. */
  lemma LastAreNewest(sorted: seq<Row>, take: nat)
    requires Ascending(sorted)
    ensures var out := LastOf(sorted, take);
            && Ascending(out) && (forall i :: 0 <= i < |out| ==> out[i] in sorted)
            && |out| == (if take == 0 || |sorted| < take then |sorted| else take)
            && (forall t :: t in TimesOf(sorted) && t !in TimesOf(out) ==> OlderThanAll(t, out))
            && (out != [] ==> out[|out| - 1].openTime in TimesOf(sorted) && forall t :: t in TimesOf(sorted) ==> t <= out[|out| - 1].openTime)
  {
    hide TimesOf, OlderThanAll;
    var out := LastOf(sorted, take);
    var cut := |sorted| - |out|;
    assert out == sorted[cut..];
    forall t | t in TimesOf(sorted)
      ensures t !in TimesOf(out) ==> OlderThanAll(t, out)
      ensures out != [] ==> t <= out[|out| - 1].openTime
    {
      CutIsOlder(sorted, cut, t);
    }
    if out != [] {
      TimeOfMember(sorted, out[|out| - 1]);
    }
  }

  lemma NewestAreLast(rows: seq<Row>, interval: int, take: nat)
    requires interval > 0
    ensures NewestBuckets(rows, interval, take, LastOf(SortRows(Fold(rows, interval)), take))
  {
    hide Fold, SortRows, Merged, LastOf, BucketTimes, OlderThanAll;
    FoldTimes(rows, interval);
    var bs := Fold(rows, interval);
    var sorted := SortRows(bs);
    SortAscends(bs);
    SameTimesOf(bs, sorted);
    AscendingCount(sorted);
    LastAreNewest(sorted, take);
    var out := LastOf(sorted, take);
    forall i | 0 <= i < |out|
      ensures out[i].openTime in TimesOf(sorted) && Merged(rows, interval, out[i].openTime) == Some(out[i].candle)
    {
      BucketCandle(rows, interval, out[i]);
      TimeOfMember(sorted, out[i]);
    }
    hide TimesOf;
  }

  lemma TimeOfMember(bs: seq<Row>, b: Row)
    requires b in bs
    ensures b.openTime in TimesOf(bs)
  {
  }

  /**
   Only the oldest returned bucket can start before `since`, where the query cut
   it, and only if no bucket was left out.
   */
  lemma OnlyFirstIsCut(rows: seq<Row>, interval: int, take: nat, since: int, out: seq<Row>, i: nat)
    requires interval > 0 && NewestBuckets(rows, interval, take, out)
    requires forall j :: 0 <= j < |rows| ==> since <= rows[j].openTime
    requires i < |out| && out[i].openTime < since
    ensures i == 0 && out[i].openTime == FloorTo(since, interval) && TimesOf(out) == BucketTimes(rows, interval)
  {
    hide Merged, FloorTo;
    var times := BucketTimes(rows, interval);
    forall t | t in times ensures FloorTo(since, interval) <= t && (t < since ==> t == FloorTo(since, interval)) {
      var j :| 0 <= j < |rows| && FloorTo(rows[j].openTime, interval) == t;
      FloorMonotone(since, rows[j].openTime, interval);
      if t < since {
        FloorOfBucket(rows[j].openTime, since, interval);
      }
    }
    assert out[i].openTime in times && out[0].openTime in times;
    forall t | t in times ensures t in TimesOf(out) {
      assert out[i].openTime <= t;
    }
    forall t | t in TimesOf(out) ensures t in times {
      var j := HasTime(out, t);
    }
  }

  /** What lies between a bucket's start and one of its seconds is in the bucket. */
  lemma FloorOfBucket(second: int, between: int, interval: int)
    requires interval > 0 && FloorTo(second, interval) <= between <= second
    ensures FloorTo(between, interval) == FloorTo(second, interval)
  {
    FloorBounds(second, interval);
    QuotientUnique(between, interval, second / interval);
  }

  lemma FoldNone(interval: int)
    requires interval > 0
    ensures Fold([], interval) == []
  {
  }

  lemma FoldOneMore(rows: seq<Row>, i: nat, interval: int)
    requires interval > 0 && i < |rows|
    ensures Fold(rows[..i + 1], interval) == Absorb(Fold(rows[..i], interval), Row(FloorTo(rows[i].openTime, interval), rows[i].candle))
  {
    hide Absorb, FloorTo;
    assert rows[..i + 1][..i] == rows[..i];
  }

  /** The rows of a derived interval. */
  method DerivedCandles(rows: seq<Row>, interval: int, take: nat) returns (out: seq<Row>)
    requires interval > 0
    ensures out == LastOf(SortRows(Fold(rows, interval)), take)
    ensures NewestBuckets(rows, interval, take, out)
  {
    hide Fold, FloorTo, SortRows, NewestBuckets;
    NewestAreLast(rows, interval, take);
    FoldNone(interval);
    var buckets: seq<Row> := [];
    for i := 0 to |rows|
      invariant buckets == Fold(rows[..i], interval)
    {
      FoldOneMore(rows, i, interval);
      var c := rows[i];
      var bucketSec := FloorTo(c.openTime, interval);
      var n := Find(buckets, bucketSec);
      if n == |buckets| {
        buckets := buckets + [Row(bucketSec, c.candle)];
      } else {
        var e := buckets[n].candle;
        buckets := buckets[n := Row(bucketSec, Candle(e.open, MaxOf(e.high, c.candle.high), MinOf(e.low, c.candle.low),
                                                     c.candle.close, e.volume + c.candle.volume))];
      }
    }
    assert rows[..|rows|] == rows;
    var sorted := SortRows(buckets);
    if take == 0 || take >= |sorted| {
      out := sorted;
    } else {
      out := sorted[|sorted| - take..];
    }
  }

  lemma FloorMonotone(a: int, b: int, interval: int)
    requires interval > 0 && a <= b
    ensures FloorTo(a, interval) <= FloorTo(b, interval) && FloorTo(a, interval) <= a < FloorTo(a, interval) + interval
  {
    FloorBounds(a, interval);
    FloorBounds(b, interval);
    var i, j := a / interval, b / interval;
    Scaled(j + 1, i, interval);
    Distribute(j, interval);
    Scaled(i, j, interval);
  }

  lemma FloorBounds(a: int, interval: int)
    requires interval > 0
    ensures FloorTo(a, interval) <= a < FloorTo(a, interval) + interval
  {
  }

  lemma Scaled(x: int, y: int, c: int)
    requires c > 0
    ensures x <= y ==> x * c <= y * c
  {
  }

  lemma Distribute(x: int, c: int)
    ensures (x + 1) * c == x * c + c
  {
  }

  lemma AbsorbAscends(bs: seq<Row>, r: Row)
    requires Ascending(bs) && (bs != [] ==> bs[|bs| - 1].openTime <= r.openTime)
    ensures var out := Absorb(bs, r); Ascending(out) && out != [] && out[|out| - 1].openTime == r.openTime
  {
    assert forall i :: 0 <= i < |bs| - 1 ==> bs[i].openTime < bs[|bs| - 1].openTime;
  }

  /** Over ascending rows the buckets come out ascending, and the last one holds the latest row. */
  lemma {:induction false} FoldAscends(rows: seq<Row>, interval: int)
    requires interval > 0 && Ascending(rows)
    ensures Ascending(Fold(rows, interval)) && (rows == [] <==> Fold(rows, interval) == [])
    ensures rows != [] ==>
              Fold(rows, interval)[|Fold(rows, interval)| - 1].openTime == FloorTo(rows[|rows| - 1].openTime, interval)
    decreases |rows|
  {
    if rows != [] {
      hide Absorb, FloorTo;
      var init, last := rows[..|rows| - 1], rows[|rows| - 1];
      FoldAscends(init, interval);
      if init != [] {
        FloorMonotone(init[|init| - 1].openTime, last.openTime, interval);
      }
      AbsorbAscends(Fold(init, interval), Row(FloorTo(last.openTime, interval), last.candle));
    }
  }

  lemma {:induction false} SortedStays(bs: seq<Row>)
    requires Ascending(bs)
    ensures SortRows(bs) == bs
    decreases |bs|
  {
    if bs != [] {
      SortedStays(bs[1..]);
      if bs[1..] != [] {
        assert bs[0].openTime < bs[1].openTime;
      }
      assert [bs[0]] + bs[1..] == bs;
    }
  }

  /** The output is strictly increasing, and has at most `take` rows unless `take` is zero and there is something to show. */
  lemma DerivedShape(rows: seq<Row>, interval: int, take: nat)
    requires interval > 0 && Ascending(rows)
    ensures var out := LastOf(SortRows(Fold(rows, interval)), take);
            && Ascending(out)
            && (|out| <= take <==> take > 0 || rows == [])
  {
    FoldAscends(rows, interval);
    SortedStays(Fold(rows, interval));
  }

  // ------------------------------------------------ agreement with the trades

  /** The trades of one market come minute by minute. */
  ghost predicate Chronological(ts: seq<Trade>, market: string) {
    forall i, j :: 0 <= i < j < |ts| && ts[i].market == market && ts[j].market == market ==> Minute(ts[i]) <= Minute(ts[j])
  }

  /** The trades of one market in one interval, in stream order. */
  function Within(ts: seq<Trade>, market: string, interval: int, bucket: int): seq<Trade>
    requires interval > 0
  {
    if ts == [] then []
    else
      var t := ts[|ts| - 1];
      Within(ts[..|ts| - 1], market, interval, bucket)
      + if t.market == market && FloorTo(t.ts / 1000, interval) == bucket then [t] else []
  }

  /** The minute rows of one market, built up along the stream. */
  function MinuteRows(ts: seq<Trade>, market: string): seq<Row> {
    if ts == [] then []
    else
      var rows := MinuteRows(ts[..|ts| - 1], market);
      var t := ts[|ts| - 1];
      if t.market != market then rows
      else if rows != [] && rows[|rows| - 1].openTime == Minute(t)
      then rows[..|rows| - 1] + [Row(Minute(t), Extend(rows[|rows| - 1].candle, t))]
      else rows + [Row(Minute(t), Single(t))]
  }

  /** The rows a bucket of the derived interval is made of, merged. */
  function Merged(rows: seq<Row>, interval: int, bucket: int): Option<Candle>
    requires interval > 0
  {
    if rows == [] then None
    else
      var r := rows[|rows| - 1];
      var before := Merged(rows[..|rows| - 1], interval, bucket);
      if FloorTo(r.openTime, interval) != bucket then before
      else match before case None => Some(r.candle) case Some(c) => Some(Merge(c, r.candle))
  }

  function Lookup(bs: seq<Row>, time: int): Option<Candle> {
    var n := Find(bs, time);
    if n < |bs| then Some(bs[n].candle) else None
  }

  lemma {:induction false} LookupPut(bs: seq<Row>, r: Row, time: int)
    ensures Lookup(Absorb(bs, r), time)
            == if r.openTime != time then Lookup(bs, time)
               else match Lookup(bs, time) case None => Some(r.candle) case Some(c) => Some(Merge(c, r.candle))
    decreases |bs|
  {
    if bs != [] && bs[0].openTime != r.openTime {
      LookupPut(bs[1..], r, time);
      assert Absorb(bs, r) == [bs[0]] + Absorb(bs[1..], r);
      LookupCons(bs[0], Absorb(bs[1..], r), time);
    } else if bs != [] {
      var e := Row(r.openTime, Merge(bs[0].candle, r.candle));
      assert Absorb(bs, r) == [e] + bs[1..];
      LookupCons(e, bs[1..], time);
    }
  }

  lemma LookupCons(r: Row, bs: seq<Row>, time: int)
    ensures Lookup([r] + bs, time) == if r.openTime == time then Some(r.candle) else Lookup(bs, time)
  {
    assert ([r] + bs)[1..] == bs;
  }

  /** The reading loop merges exactly the rows of each bucket, in order. */
  lemma {:induction false} FoldMerges(rows: seq<Row>, interval: int, bucket: int)
    requires interval > 0
    ensures Lookup(Fold(rows, interval), bucket) == Merged(rows, interval, bucket)
    decreases |rows|
  {
    if rows != [] {
      FoldMerges(rows[..|rows| - 1], interval, bucket);
      var r := rows[|rows| - 1];
      LookupPut(Fold(rows[..|rows| - 1], interval), Row(FloorTo(r.openTime, interval), r.candle), bucket);
    }
  }

  function OhlcvOrNone(ts: seq<Trade>): Option<Candle> {
    if ts == [] then None else Some(Ohlcv(ts))
  }

  lemma WithinAppend(ts: seq<Trade>, t: Trade, market: string, interval: int, bucket: int)
    requires interval > 0
    ensures Within(ts + [t], market, interval, bucket)
            == Within(ts, market, interval, bucket) + if t.market == market && FloorTo(t.ts / 1000, interval) == bucket then [t] else []
  {
    assert (ts + [t])[..|ts|] == ts;
  }

  lemma OhlcvAppend(ts: seq<Trade>, t: Trade)
    ensures OhlcvOrNone(ts + [t]) == match OhlcvOrNone(ts) case None => Some(Single(t)) case Some(c) => Some(Extend(c, t))
  {
    OhlcvOfAppend(ts, t);
  }

  lemma MergedAppend(rows: seq<Row>, r: Row, interval: int, bucket: int)
    requires interval > 0
    ensures Merged(rows + [r], interval, bucket)
            == if FloorTo(r.openTime, interval) != bucket then Merged(rows, interval, bucket)
               else match Merged(rows, interval, bucket) case None => Some(r.candle) case Some(c) => Some(Merge(c, r.candle))
  {
    assert (rows + [r])[..|rows|] == rows;
  }

  /** A minute lies wholly in one bucket when the interval is a multiple of a minute. */
  lemma MinuteInBucket(seconds: int, n: int)
    requires n > 0
    ensures FloorTo(FloorTo(seconds, M1), M1 * n) == FloorTo(seconds, M1 * n)
  {
    var interval := M1 * n;
    var q := seconds / interval;
    var r := seconds % interval;
    Assoc(q, M1, n);
    assert seconds == q * interval + r;
    var minute := FloorTo(seconds, M1);
    FloorBounds(seconds, M1);
    var j := seconds / M1;
    assert minute == j * M1;
    assert q * interval <= minute by {
      assert q * interval == (q * n) * M1;
      Scaled(j + 1, q * n, M1);
      Scaled(q * n, j, M1);
    }
    QuotientUnique(minute, interval, q);
  }

  lemma Assoc(a: int, b: int, c: int)
    ensures a * (b * c) == a * c * b
  {
  }

  lemma QuotientUnique(x: int, c: int, q: int)
    requires c > 0 && q * c <= x < q * c + c
    ensures x / c == q
  {
    FloorBounds(x, c);
    var d := x / c;
    Scaled(q + 1, d, c);
    Distribute(q, c);
    Scaled(d + 1, q, c);
    Distribute(d, c);
  }

  /** Merging a bucket's minute rows is aggregating its trades. */
  lemma {:induction false} RowsAgree(ts: seq<Trade>, market: string, n: int, bucket: int)
    requires n > 0
    ensures Merged(MinuteRows(ts, market), M1 * n, bucket) == OhlcvOrNone(Within(ts, market, M1 * n, bucket))
    decreases |ts|
  {
    if ts != [] {
      var init, t := ts[..|ts| - 1], ts[|ts| - 1];
      RowsAgree(init, market, n, bucket);
      assert ts == init + [t];
      WithinAppend(init, t, market, M1 * n, bucket);
      if t.market == market {
        OneMoreTrade(MinuteRows(init, market), Within(init, market, M1 * n, bucket), t, n, bucket);
      } else {
        assert Within(init, market, M1 * n, bucket) + [] == Within(init, market, M1 * n, bucket);
      }
    }
  }

  lemma OneMoreTrade(rows: seq<Row>, within: seq<Trade>, t: Trade, n: int, bucket: int)
    requires n > 0 && Merged(rows, M1 * n, bucket) == OhlcvOrNone(within)
    ensures var rows1 := if rows != [] && rows[|rows| - 1].openTime == Minute(t)
                         then rows[..|rows| - 1] + [Row(Minute(t), Extend(rows[|rows| - 1].candle, t))]
                         else rows + [Row(Minute(t), Single(t))];
            Merged(rows1, M1 * n, bucket)
            == OhlcvOrNone(within + if FloorTo(t.ts / 1000, M1 * n) == bucket then [t] else [])
  {
    MinuteInBucket(t.ts / 1000, n);
    OhlcvAppend(within, t);
    assert within + [] == within;
    if rows != [] && rows[|rows| - 1].openTime == Minute(t) {
      var init, last := rows[..|rows| - 1], rows[|rows| - 1];
      MergedAppend(init, last, M1 * n, bucket);
      assert init + [last] == rows;
      MergedAppend(init, Row(Minute(t), Extend(last.candle, t)), M1 * n, bucket);
    } else {
      MergedAppend(rows, Row(Minute(t), Single(t)), M1 * n, bucket);
    }
  }

  /** The rows a query returns: those of the market from `since` on, ascending. */
  ghost predicate Lists(rows: seq<Row>, table: Table, market: string, since: int) {
    && Ascending(rows)
    && (forall i :: 0 <= i < |rows| ==>
          since <= rows[i].openTime && Key(market, rows[i].openTime) in table && table[Key(market, rows[i].openTime)] == rows[i].candle)
    && (forall time :: since <= time && Key(market, time) in table ==> exists i :: 0 <= i < |rows| && rows[i].openTime == time)
  }

  ghost predicate RowsMatch(rows: seq<Row>, b: map<Key, Candle>, market: string) {
    && Ascending(rows)
    && (forall i :: 0 <= i < |rows| ==> Key(market, rows[i].openTime) in b && b[Key(market, rows[i].openTime)] == rows[i].candle)
    && (forall time :: Key(market, time) in b ==> exists i :: 0 <= i < |rows| && rows[i].openTime == time)
  }

  /** Along a chronological stream the minute rows are the table's rows, ascending, and none is later than the last trade. */
  lemma {:induction false} MinuteRowsMatch(ts: seq<Trade>, market: string)
    requires Chronological(ts, market)
    ensures RowsMatch(MinuteRows(ts, market), Buckets(ts), market)
    decreases |ts|
  {
    if ts == [] {
      assert Buckets(ts) == map[];
    } else {
      var init, t := ts[..|ts| - 1], ts[|ts| - 1];
      MinuteRowsMatch(init, market);
      assert ts == init + [t];
      BucketsAppend(init, t);
      if t.market == market {
        forall i | 0 <= i < |MinuteRows(init, market)| ensures MinuteRows(init, market)[i].openTime <= Minute(t) {
          RowIsOld(ts, market, i);
        }
        RowsMatchAppend(MinuteRows(init, market), Buckets(init), market, t);
      }
    }
  }

  lemma RowIsOld(ts: seq<Trade>, market: string, i: nat)
    requires ts != [] && Chronological(ts, market) && ts[|ts| - 1].market == market
    requires var rows := MinuteRows(ts[..|ts| - 1], market);
             RowsMatch(rows, Buckets(ts[..|ts| - 1]), market) && i < |rows|
    ensures MinuteRows(ts[..|ts| - 1], market)[i].openTime <= Minute(ts[|ts| - 1])
  {
  }

  lemma RowsMatchNew(rows: seq<Row>, b: map<Key, Candle>, market: string, time: int, c: Candle)
    requires RowsMatch(rows, b, market) && (rows != [] ==> rows[|rows| - 1].openTime < time)
    ensures Key(market, time) !in b && RowsMatch(rows + [Row(time, c)], b[Key(market, time) := c], market)
  {
    assert forall i :: 0 <= i < |rows| - 1 ==> rows[i].openTime < rows[|rows| - 1].openTime;
    var rows1 := rows + [Row(time, c)];
    forall x | Key(market, x) in b[Key(market, time) := c] ensures exists i :: 0 <= i < |rows1| && rows1[i].openTime == x {
      if x == time {
        assert rows1[|rows|].openTime == x;
      } else {
        var i :| 0 <= i < |rows| && rows[i].openTime == x;
        assert rows1[i].openTime == x;
      }
    }
  }

  lemma RowsMatchLast(rows: seq<Row>, b: map<Key, Candle>, market: string, c: Candle)
    requires RowsMatch(rows, b, market) && rows != []
    ensures var time := rows[|rows| - 1].openTime;
            && Key(market, time) in b && b[Key(market, time)] == rows[|rows| - 1].candle
            && RowsMatch(rows[..|rows| - 1] + [Row(time, c)], b[Key(market, time) := c], market)
  {
    var time := rows[|rows| - 1].openTime;
    var rows1 := rows[..|rows| - 1] + [Row(time, c)];
    assert forall i :: 0 <= i < |rows| ==> rows1[i].openTime == rows[i].openTime;
    assert forall i :: 0 <= i < |rows| - 1 ==> rows[i].openTime < time;
    forall x | Key(market, x) in b[Key(market, time) := c] ensures exists i :: 0 <= i < |rows1| && rows1[i].openTime == x {
      var i :| 0 <= i < |rows| && rows[i].openTime == x;
      assert rows1[i].openTime == x;
    }
  }

  lemma RowsMatchAppend(rows: seq<Row>, b: map<Key, Candle>, market: string, t: Trade)
    requires RowsMatch(rows, b, market) && t.market == market
    requires forall i :: 0 <= i < |rows| ==> rows[i].openTime <= Minute(t)
    ensures var k := KeyOf(t);
            var rows1 := if rows != [] && rows[|rows| - 1].openTime == Minute(t)
                         then rows[..|rows| - 1] + [Row(Minute(t), Extend(rows[|rows| - 1].candle, t))]
                         else rows + [Row(Minute(t), Single(t))];
            RowsMatch(rows1, b[k := if k in b then Extend(b[k], t) else Single(t)], market)
  {
    if rows != [] && rows[|rows| - 1].openTime == Minute(t) {
      RowsMatchLast(rows, b, market, Extend(rows[|rows| - 1].candle, t));
    } else {
      RowsMatchNew(rows, b, market, Minute(t), Single(t));
    }
  }

  /** `rows` are those of `all` from `since` on. */
  ghost predicate From(rows: seq<Row>, all: seq<Row>, since: int) {
    Ascending(rows) && Ascending(all) && forall r :: r in rows <==> r in all && since <= r.openTime
  }

  lemma LastListed(rows: seq<Row>, all: seq<Row>, since: int)
    requires From(rows, all, since) && all != [] && since <= all[|all| - 1].openTime
    ensures rows != [] && rows[|rows| - 1] == all[|all| - 1]
    ensures From(rows[..|rows| - 1], all[..|all| - 1], since)
  {
  }

  lemma SomeMember(rows: seq<Row>)
    ensures rows == [] || exists r :: r in rows
  {
    if rows != [] {
      assert rows[0] in rows;
    }
  }

  /** Dropping the latest row drops just that row. */
  lemma WithoutLast(rows: seq<Row>)
    requires Ascending(rows) && rows != []
    ensures Ascending(rows[..|rows| - 1])
    ensures forall r :: r in rows[..|rows| - 1] <==> r in rows && r != rows[|rows| - 1]
  {
  }

  lemma OldRowDropped(rows: seq<Row>, all: seq<Row>, since: int)
    requires From(rows, all, since) && all != [] && all[|all| - 1].openTime < since
    ensures From(rows, all[..|all| - 1], since)
  {
    WithoutLast(all);
  }

  /** Two ascending lists with the same rows from `since` on merge alike in every bucket that starts there. */
  lemma {:induction false} ListedMerge(rows: seq<Row>, all: seq<Row>, since: int, interval: int, bucket: int)
    requires interval > 0 && since <= bucket && From(rows, all, since)
    ensures Merged(rows, interval, bucket) == Merged(all, interval, bucket)
    decreases |all|
  {
    if all == [] {
      SomeMember(rows);
    } else if since <= all[|all| - 1].openTime {
      LastListed(rows, all, since);
      ListedMerge(rows[..|rows| - 1], all[..|all| - 1], since, interval, bucket);
    } else {
      FloorBounds(all[|all| - 1].openTime, interval);
      OldRowDropped(rows, all, since);
      ListedMerge(rows, all[..|all| - 1], since, interval, bucket);
    }
  }

  lemma ListedRows(rows: seq<Row>, all: seq<Row>, table: Table, market: string, since: int)
    requires Lists(rows, table, market, since) && RowsMatch(all, table, market)
    ensures From(rows, all, since)
  {
  }

  lemma ChronologicalAgrees(ts: seq<Trade>, market: string, rows: seq<Row>, n: int, since: int, bucket: int)
    requires n > 0 && since <= bucket && Chronological(ts, market) && Lists(rows, Buckets(ts), market, since)
    ensures Lookup(SortRows(Fold(rows, M1 * n)), bucket) == OhlcvOrNone(Within(ts, market, M1 * n, bucket))
  {
    FoldAscends(rows, M1 * n);
    SortedStays(Fold(rows, M1 * n));
    FoldMerges(rows, M1 * n, bucket);
    MinuteRowsMatch(ts, market);
    ListedRows(rows, MinuteRows(ts, market), Buckets(ts), market, since);
    ListedMerge(rows, MinuteRows(ts, market), since, M1 * n, bucket);
    RowsAgree(ts, market, n, bucket);
  }

  // ------------------------------------------------- trades out of time order

  /** Put a trade behind all trades of its minute and earlier ones. */
  function InsertLate(s: seq<Trade>, t: Trade): seq<Trade> {
    if s == [] || Minute(s[|s| - 1]) <= Minute(t) then s + [t]
    else InsertLate(s[..|s| - 1], t) + [s[|s| - 1]]
  }

  /** The trades of one market minute by minute, within a minute as they arrived. */
  function ByMinute(ts: seq<Trade>, market: string): seq<Trade> {
    if ts == [] then []
    else
      var t := ts[|ts| - 1];
      var s := ByMinute(ts[..|ts| - 1], market);
      if t.market == market then InsertLate(s, t) else s
  }

  ghost predicate MinutesAscend(s: seq<Trade>) {
    forall i, j :: 0 <= i < j < |s| ==> Minute(s[i]) <= Minute(s[j])
  }

  lemma {:induction false} InsertLateMembers(s: seq<Trade>, t: Trade)
    ensures multiset(InsertLate(s, t)) == multiset(s) + multiset{t}
    decreases |s|
  {
    if s != [] && Minute(s[|s| - 1]) > Minute(t) {
      InsertLateMembers(s[..|s| - 1], t);
    }
    if s != [] {
      assert s == s[..|s| - 1] + [s[|s| - 1]];
    }
  }

  lemma {:induction false} InsertLateAscends(s: seq<Trade>, t: Trade)
    requires MinutesAscend(s)
    ensures MinutesAscend(InsertLate(s, t))
    decreases |s|
  {
    if s != [] && Minute(s[|s| - 1]) > Minute(t) {
      var init, last := s[..|s| - 1], s[|s| - 1];
      InsertLateAscends(init, t);
      InsertLateMembers(init, t);
      var r := InsertLate(init, t);
      forall i | 0 <= i < |r| ensures Minute(r[i]) <= Minute(last) {
        assert r[i] in multiset(r);
        assert r[i] in init || r[i] == t;
      }
    }
  }

  /** No minute notices where in other minutes a trade was put. */
  lemma {:induction false} InsertLateOf(s: seq<Trade>, t: Trade, k: Key)
    ensures Of(InsertLate(s, t), k) == Of(s, k) + if KeyOf(t) == k then [t] else []
    decreases |s|
  {
    hide Of;
    if s == [] || Minute(s[|s| - 1]) <= Minute(t) {
      OfAppend(s, t, k);
    } else {
      var init, last := s[..|s| - 1], s[|s| - 1];
      InsertLateOf(init, t, k);
      OfAppend(InsertLate(init, t), last, k);
      assert s == init + [last];
      OfAppend(init, last, k);
      assert !(KeyOf(t) == k && KeyOf(last) == k);
    }
  }

  lemma {:induction false} ByMinuteSorted(ts: seq<Trade>, market: string)
    ensures MinutesAscend(ByMinute(ts, market))
    decreases |ts|
  {
    if ts != [] {
      ByMinuteSorted(ts[..|ts| - 1], market);
      InsertLateAscends(ByMinute(ts[..|ts| - 1], market), ts[|ts| - 1]);
    }
  }

  lemma {:induction false} ByMinuteOf(ts: seq<Trade>, market: string, time: int)
    ensures Of(ByMinute(ts, market), Key(market, time)) == Of(ts, Key(market, time))
    decreases |ts|
  {
    if ts != [] {
      ByMinuteOf(ts[..|ts| - 1], market, time);
      InsertLateOf(ByMinute(ts[..|ts| - 1], market), ts[|ts| - 1], Key(market, time));
      assert Of(ts[..|ts| - 1], Key(market, time)) + [] == Of(ts[..|ts| - 1], Key(market, time));
    }
  }

  /** What one trade adds to a bucket. */
  function Share(t: Trade, market: string, interval: int, bucket: int): multiset<Trade>
    requires interval > 0
  {
    if t.market == market && FloorTo(t.ts / 1000, interval) == bucket then multiset{t} else multiset{}
  }

  lemma WithinAdds(ts: seq<Trade>, t: Trade, market: string, interval: int, bucket: int)
    requires interval > 0
    ensures multiset(Within(ts + [t], market, interval, bucket)) == multiset(Within(ts, market, interval, bucket)) + Share(t, market, interval, bucket)
  {
    WithinAppend(ts, t, market, interval, bucket);
  }

  lemma {:induction false} InsertLateWithin(s: seq<Trade>, t: Trade, market: string, interval: int, bucket: int)
    requires interval > 0
    ensures multiset(Within(InsertLate(s, t), market, interval, bucket)) == multiset(Within(s, market, interval, bucket)) + Share(t, market, interval, bucket)
    decreases |s|
  {
    hide Within, Share;
    if s == [] || Minute(s[|s| - 1]) <= Minute(t) {
      WithinAdds(s, t, market, interval, bucket);
    } else {
      var init, last := s[..|s| - 1], s[|s| - 1];
      InsertLateWithin(init, t, market, interval, bucket);
      WithinAdds(InsertLate(init, t), last, market, interval, bucket);
      WithinAdds(init, last, market, interval, bucket);
      assert s == init + [last];
    }
  }

  /** Sorting by minute moves trades around within their bucket and nowhere else. */
  lemma {:induction false} ByMinuteWithin(ts: seq<Trade>, market: string, interval: int, bucket: int)
    requires interval > 0
    ensures multiset(Within(ByMinute(ts, market), market, interval, bucket)) == multiset(Within(ts, market, interval, bucket))
    decreases |ts|
  {
    if ts != [] {
      var init, t := ts[..|ts| - 1], ts[|ts| - 1];
      ByMinuteWithin(init, market, interval, bucket);
      assert ts == init + [t];
      WithinAdds(init, t, market, interval, bucket);
      if t.market == market {
        InsertLateWithin(ByMinute(init, market), t, market, interval, bucket);
      }
    }
  }

  lemma {:induction false} VolumeWithout(ts: seq<Trade>, i: nat)
    requires i < |ts|
    ensures Volume(ts) == Volume(ts[..i] + ts[i + 1..]) + ts[i].qty
    decreases |ts|
  {
    VolumeConcat(ts[..i], ts[i..]);
    VolumeConcat(ts[..i], ts[i + 1..]);
    VolumeConcat([ts[i]], ts[i + 1..]);
    assert ts == ts[..i] + ts[i..] && ts[i..] == [ts[i]] + ts[i + 1..];
    assert Volume([ts[i]]) == ts[i].qty by { assert [ts[i]][..0] == []; }
  }

  lemma TakenOut(ts: seq<Trade>, i: nat)
    requires i < |ts|
    ensures multiset(ts[..i] + ts[i + 1..]) == multiset(ts) - multiset{ts[i]}
  {
    assert ts == ts[..i] + [ts[i]] + ts[i + 1..];
  }

  lemma TakeSame(a: seq<Trade>, b: seq<Trade>) returns (i: nat)
    requires multiset(a) == multiset(b) && a != []
    ensures i < |b| && b[i] == a[|a| - 1] && multiset(a[..|a| - 1]) == multiset(b[..i] + b[i + 1..])
  {
    var init, last := a[..|a| - 1], a[|a| - 1];
    assert a == init + [last] && last in multiset(b);
    i :| 0 <= i < |b| && b[i] == last;
    TakenOut(b, i);
    assert multiset(a) == multiset(init) + multiset{last};
  }

  lemma {:induction false} SameVolume(a: seq<Trade>, b: seq<Trade>)
    requires multiset(a) == multiset(b)
    ensures Volume(a) == Volume(b)
    decreases |a|
  {
    if a == [] {
      assert |multiset(b)| == 0;
    } else {
      var i := TakeSame(a, b);
      VolumeWithout(b, i);
      SameVolume(a[..|a| - 1], b[..i] + b[i + 1..]);
    }
  }

  /** High, low and volume do not depend on the order of the trades. */
  lemma SameTradesSameExtremes(a: seq<Trade>, b: seq<Trade>)
    requires multiset(a) == multiset(b) && a != [] && b != []
    ensures Ohlcv(a).high == Ohlcv(b).high && Ohlcv(a).low == Ohlcv(b).low && Ohlcv(a).volume == Ohlcv(b).volume
  {
    OhlcvMeans(a);
    OhlcvMeans(b);
    SameVolume(a, b);
    ReachesExtremes(a, b);
    ReachesExtremes(b, a);
  }

  lemma ReachesExtremes(a: seq<Trade>, b: seq<Trade>)
    requires multiset(a) == multiset(b) && a != [] && b != []
    requires IsCandleOf(Ohlcv(a), a) && IsCandleOf(Ohlcv(b), b)
    ensures Ohlcv(a).high <= Ohlcv(b).high && Ohlcv(b).low <= Ohlcv(a).low
  {
    hide Ohlcv;
    var i :| 0 <= i < |a| && a[i].price == Ohlcv(a).high;
    var j :| 0 <= j < |a| && a[j].price == Ohlcv(a).low;
    assert a[i] in multiset(b) && a[j] in multiset(b);
    var x :| 0 <= x < |b| && b[x] == a[i];
    var y :| 0 <= y < |b| && b[y] == a[j];
  }

  lemma ByMinuteLists(ts: seq<Trade>, market: string, rows: seq<Row>, since: int)
    requires Lists(rows, Buckets(ts), market, since)
    ensures Lists(rows, Buckets(ByMinute(ts, market)), market, since)
  {
    forall time ensures SameAt(ts, ByMinute(ts, market), Key(market, time)) {
      BucketAt(ts, Key(market, time));
      BucketAt(ByMinute(ts, market), Key(market, time));
      ByMinuteOf(ts, market, time);
    }
    hide Buckets, ByMinute;
    forall i | 0 <= i < |rows| ensures SameAt(ts, ByMinute(ts, market), Key(market, rows[i].openTime)) {
    }
    forall time | since <= time && Key(market, time) in Buckets(ByMinute(ts, market))
      ensures exists i :: 0 <= i < |rows| && rows[i].openTime == time
    {
      assert SameAt(ts, ByMinute(ts, market), Key(market, time));
    }
  }

  ghost predicate SameAt(a: seq<Trade>, b: seq<Trade>, k: Key) {
    (k in Buckets(a) <==> k in Buckets(b)) && (k in Buckets(a) ==> Buckets(a)[k] == Buckets(b)[k])
  }

  /**
   Every timeframe, for trades in any order: for an interval of whole minutes,
   each bucket that does not start before `since` is the candle of its trades
   taken minute by minute, and is there exactly if it has trades.
   */
  lemma EveryTimeframeAgrees(ts: seq<Trade>, market: string, rows: seq<Row>, n: int, since: int, bucket: int)
    requires n > 0 && since <= bucket && Lists(rows, Buckets(ts), market, since)
    ensures Lookup(SortRows(Fold(rows, M1 * n)), bucket) == OhlcvOrNone(Within(ByMinute(ts, market), market, M1 * n, bucket))
    ensures Within(ByMinute(ts, market), market, M1 * n, bucket) == [] <==> Within(ts, market, M1 * n, bucket) == []
  {
    ByMinuteSorted(ts, market);
    ByMinuteLists(ts, market, rows, since);
    ChronologicalAgrees(ByMinute(ts, market), market, rows, n, since, bucket);
    ByMinuteWithin(ts, market, M1 * n, bucket);
    var a, b := Within(ByMinute(ts, market), market, M1 * n, bucket), Within(ts, market, M1 * n, bucket);
    assert |a| == |multiset(a)| == |multiset(b)| == |b|;
  }

  lemma LookupAt(bs: seq<Row>, i: nat)
    requires Ascending(bs) && i < |bs|
    ensures Lookup(bs, bs[i].openTime) == Some(bs[i].candle)
  {
    var n := Find(bs, bs[i].openTime);
    assert forall a, b :: 0 <= a < b < |bs| ==> bs[a].openTime != bs[b].openTime;
  }

  lemma ListsAscends(rows: seq<Row>, table: Table, market: string, since: int)
    requires Lists(rows, table, market, since)
    ensures Ascending(rows)
  {
  }

  /**
   A returned row, other than one whose bucket starts before `since`, always has
   the high, low and volume of its trades. It is their candle as they arrived if
   and only if the first and the last of them are as cheap as the first of the
   earliest and the last of the latest minute.
   */
  lemma ReturnedRowsAgree(ts: seq<Trade>, market: string, rows: seq<Row>, n: int, since: int, take: nat, i: nat)
    requires n > 0 && Lists(rows, Buckets(ts), market, since)
    requires var out := LastOf(SortRows(Fold(rows, M1 * n)), take); i < |out| && since <= out[i].openTime
    ensures var row := LastOf(SortRows(Fold(rows, M1 * n)), take)[i];
            var trades := Within(ts, market, M1 * n, row.openTime);
            var sorted := Within(ByMinute(ts, market), market, M1 * n, row.openTime);
            && trades != [] && |sorted| == |trades| && IsCandleOf(row.candle, sorted)
            && row.candle.high == Ohlcv(trades).high && row.candle.low == Ohlcv(trades).low && row.candle.volume == Ohlcv(trades).volume
            && (row.candle == Ohlcv(trades) <==>
                  sorted[0].price == trades[0].price && sorted[|sorted| - 1].price == trades[|trades| - 1].price)
  {
    hide Lists, Fold, SortRows, Within, Lookup, ByMinute, Ohlcv;
    var bs := SortRows(Fold(rows, M1 * n));
    var row := LastOf(bs, take)[i];
    ListsAscends(rows, Buckets(ts), market, since);
    FoldAscends(rows, M1 * n);
    SortedStays(Fold(rows, M1 * n));
    LookupAt(bs, i + |bs| - |LastOf(bs, take)|);
    EveryTimeframeAgrees(ts, market, rows, n, since, row.openTime);
    var trades := Within(ts, market, M1 * n, row.openTime);
    var sorted := Within(ByMinute(ts, market), market, M1 * n, row.openTime);
    ByMinuteWithin(ts, market, M1 * n, row.openTime);
    assert |sorted| == |multiset(sorted)| == |multiset(trades)| == |trades|;
    OhlcvMeans(sorted);
    OhlcvMeans(trades);
    SameTradesSameExtremes(sorted, trades);
  }
}
