/**
 The derived intervals over the table the aggregator really writes, whatever
 batches it was given.
 */
module Timeframes {
  import opened Wrappers
  import opened Candles
  import opened Deliveries

  /** Every minute of the bucket is shown whole. */
  ghost predicate BucketWhole(log: seq<Trade>, ds: seq<Delivery>, market: string, interval: int, bucket: int)
    requires interval > 0
  {
    forall time :: FloorTo(time, interval) == bucket ==> Shown(log, ds, Key(market, time)) == Spec(log, ds, Key(market, time))
  }

  predicate SameTimes(a: seq<Row>, b: seq<Row>) {
    |a| == |b| && forall i :: 0 <= i < |a| ==> a[i].openTime == b[i].openTime
  }

  predicate InBucket(r: Row, interval: int, bucket: int)
    requires interval > 0
  {
    FloorTo(r.openTime, interval) == bucket
  }

  /** Same rows in the bucket, same candle. */
  lemma {:induction false} MergedSame(a: seq<Row>, b: seq<Row>, interval: int, bucket: int)
    requires interval > 0 && SameTimes(a, b)
    requires forall i :: 0 <= i < |a| && InBucket(a[i], interval, bucket) ==> a[i] == b[i]
    ensures Merged(a, interval, bucket) == Merged(b, interval, bucket)
    decreases |a|
  {
    if a != [] {
      MergedSame(a[..|a| - 1], b[..|b| - 1], interval, bucket);
      assert InBucket(a[|a| - 1], interval, bucket) ==> a[|a| - 1] == b[|b| - 1];
    }
  }

  function VolumeOf(c: Option<Candle>): int {
    if c.None? then 0 else c.value.volume
  }

  /** Rows with no more volume merge to no more, and to less where one row has less. */
  lemma {:induction false} MergedLess(a: seq<Row>, b: seq<Row>, interval: int, bucket: int)
    requires interval > 0 && SameTimes(a, b)
    requires forall i :: 0 <= i < |a| && InBucket(a[i], interval, bucket) ==> a[i].candle.volume <= b[i].candle.volume
    ensures VolumeOf(Merged(a, interval, bucket)) <= VolumeOf(Merged(b, interval, bucket))
    ensures (exists i :: 0 <= i < |a| && InBucket(a[i], interval, bucket) && a[i].candle.volume < b[i].candle.volume) ==>
              VolumeOf(Merged(a, interval, bucket)) < VolumeOf(Merged(b, interval, bucket))
    ensures Merged(a, interval, bucket).Some? <==> Merged(b, interval, bucket).Some?
    decreases |a|
  {
    if a != [] {
      var a0, b0 := a[..|a| - 1], b[..|b| - 1];
      MergedLess(a0, b0, interval, bucket);
      assert InBucket(a[|a| - 1], interval, bucket) ==> a[|a| - 1].candle.volume <= b[|b| - 1].candle.volume;
      if i :| 0 <= i < |a| && InBucket(a[i], interval, bucket) && a[i].candle.volume < b[i].candle.volume && i < |a| - 1 {
        assert InBucket(a0[i], interval, bucket) && a0[i].candle.volume < b0[i].candle.volume;
      }
    }
  }

  /** The rows as they would be had the table been right. */
  ghost function RightRows(rows: seq<Row>, table: Table, market: string): seq<Row>
    requires forall i :: 0 <= i < |rows| ==> Key(market, rows[i].openTime) in table
  {
    seq(|rows|, i requires 0 <= i < |rows| => Row(rows[i].openTime, table[Key(market, rows[i].openTime)]))
  }

  /** The written and the right rows list the same minutes; a written row is right if it is shown whole, and otherwise short of volume. */
  lemma RowsCompare(log: seq<Trade>, ds: seq<Delivery>, market: string, rows: seq<Row>, since: int) returns (right: seq<Row>)
    requires Legal(log, ds) && AllPositive(log) && Lists(rows, Written(log, ds), market, since)
    ensures Lists(right, Buckets(ReadSoFar(log, ds)), market, since) && SameTimes(rows, right)
    ensures forall i :: 0 <= i < |rows| ==>
              var k := Key(market, rows[i].openTime);
              && (Shown(log, ds, k) == Spec(log, ds, k) ==> rows[i] == right[i])
              && rows[i].candle.volume <= right[i].candle.volume
              && (Shown(log, ds, k) != Spec(log, ds, k) ==> rows[i].candle.volume < right[i].candle.volume)
    ensures forall time :: since <= time && Shown(log, ds, Key(market, time)) != Spec(log, ds, Key(market, time)) ==>
              exists i :: 0 <= i < |rows| && rows[i].openTime == time
  {
    hide Written, Shown, Spec, Buckets, AllPositive, Legal;
    var table := Buckets(ReadSoFar(log, ds));
    forall time
      ensures Key(market, time) in Written(log, ds) <==> Key(market, time) in table
      ensures Shown(log, ds, Key(market, time)) != Spec(log, ds, Key(market, time)) ==> Key(market, time) in table
    {
      RowVolume(log, ds, Key(market, time));
    }
    right := RightRows(rows, table, market);
    forall i | 0 <= i < |rows|
      ensures Shown(log, ds, Key(market, rows[i].openTime)) == Spec(log, ds, Key(market, rows[i].openTime)) ==> rows[i] == right[i]
      ensures rows[i].candle.volume <= right[i].candle.volume
      ensures Shown(log, ds, Key(market, rows[i].openTime)) != Spec(log, ds, Key(market, rows[i].openTime)) ==>
                rows[i].candle.volume < right[i].candle.volume
    {
      RowVolume(log, ds, Key(market, rows[i].openTime));
    }
  }

  lemma RowVolume(log: seq<Trade>, ds: seq<Delivery>, k: Key)
    requires Legal(log, ds) && AllPositive(log)
    ensures k in Written(log, ds) <==> k in Buckets(ReadSoFar(log, ds))
    ensures Shown(log, ds, k) != Spec(log, ds, k) ==> k in Written(log, ds)
    ensures k in Written(log, ds) ==>
              var c, right := Written(log, ds)[k], Buckets(ReadSoFar(log, ds))[k];
              && c.volume <= right.volume
              && if Shown(log, ds, k) == Spec(log, ds, k) then c == right else c.volume < right.volume
  {
    hide Written, Shown, AllPositive, Legal, Of;
    RowFollowsLog(log, ds, k);
    RowShows(log, ds, k);
    BucketAt(ReadSoFar(log, ds), k);
  }

  /** A derived bucket is what its rows merge to. */
  lemma BucketIsMerged(rows: seq<Row>, table: Table, market: string, since: int, interval: int, bucket: int)
    requires interval > 0 && Lists(rows, table, market, since)
    ensures Lookup(SortRows(Fold(rows, interval)), bucket) == Merged(rows, interval, bucket)
  {
    hide Fold, SortRows, Merged, Lookup;
    ListsAscends(rows, table, market, since);
    FoldAscends(rows, interval);
    SortedStays(Fold(rows, interval));
    FoldMerges(rows, interval, bucket);
  }

  /**
   End to end, with positive quantities: for an interval of whole minutes, the
   bucket that the API derives from the written table is the candle of its trades
   taken minute by minute if and only if each of its minutes is shown whole,
   whatever the deliveries were.
   */
  lemma DerivedIsExact(log: seq<Trade>, ds: seq<Delivery>, market: string, rows: seq<Row>, n: int, since: int, bucket: int)
    requires Legal(log, ds) && AllPositive(log)
    requires n > 0 && since <= bucket && Lists(rows, Written(log, ds), market, since)
    ensures Lookup(SortRows(Fold(rows, M1 * n)), bucket)
              == OhlcvOrNone(Within(ByMinute(ReadSoFar(log, ds), market), market, M1 * n, bucket))
            <==> BucketWhole(log, ds, market, M1 * n, bucket)
  {
    hide Written, Shown, Spec, Fold, SortRows, Lookup, ByMinute, Within, Merged, Buckets, AllPositive, FloorTo, ReadSoFar, Legal;
    var interval := M1 * n;
    var right := RowsCompare(log, ds, market, rows, since);
    BucketIsMerged(rows, Written(log, ds), market, since, interval, bucket);
    BucketIsMerged(right, Buckets(ReadSoFar(log, ds)), market, since, interval, bucket);
    EveryTimeframeAgrees(ReadSoFar(log, ds), market, right, n, since, bucket);
    if BucketWhole(log, ds, market, interval, bucket) {
      MergedSame(rows, right, interval, bucket);
    } else {
      var time :| FloorTo(time, interval) == bucket && Shown(log, ds, Key(market, time)) != Spec(log, ds, Key(market, time));
      FloorBounds(time, interval);
      var i :| 0 <= i < |rows| && rows[i].openTime == time;
      assert InBucket(rows[i], interval, bucket) && rows[i].candle.volume < right[i].candle.volume;
      MergedLess(rows, right, interval, bucket);
    }
  }
}
