/**
 What the aggregator is given. The trades of a partition are one log; a batch is
 any stretch of it that begins no further than the log has been read, so after a
 rewind the batches may be cut anew and may hold trades that arrived meanwhile.
 */
module Deliveries {
  import opened Candles

  /** The batch log[lo..hi]. */
  datatype Delivery = Delivery(lo: nat, hi: nat)

  function Larger(a: nat, b: nat): nat {
    if a >= b then a else b
  }

  /** How far the log has been read. */
  function Reached(ds: seq<Delivery>): nat {
    if ds == [] then 0 else Larger(Reached(ds[..|ds| - 1]), ds[|ds| - 1].hi)
  }

  /** Nothing is passed over: a rewind goes back, never ahead. */
  predicate Legal(log: seq<Trade>, ds: seq<Delivery>) {
    ds == []
    || (var d := ds[|ds| - 1];
        Legal(log, ds[..|ds| - 1]) && d.lo <= d.hi <= |log| && d.lo <= Reached(ds[..|ds| - 1]))
  }

  function BatchOf(log: seq<Trade>, d: Delivery): seq<Trade> {
    if d.lo <= d.hi <= |log| then log[d.lo..d.hi] else []
  }

  ghost function Written(log: seq<Trade>, ds: seq<Delivery>): Table {
    if ds == [] then map[]
    else Flush(Written(log, ds[..|ds| - 1]), Buckets(BatchOf(log, ds[|ds| - 1])))
  }

  function ReadSoFar(log: seq<Trade>, ds: seq<Delivery>): seq<Trade> {
    if Reached(ds) <= |log| then log[..Reached(ds)] else log
  }

  /** The trades the row should show: all of its minute that have been read. */
  function Spec(log: seq<Trade>, ds: seq<Delivery>, k: Key): seq<Trade> {
    Of(ReadSoFar(log, ds), k)
  }

  /** The trades the row does show: those of the last delivery that had any of its minute. */
  function Shown(log: seq<Trade>, ds: seq<Delivery>, k: Key): seq<Trade> {
    if ds == [] then []
    else
      var last := Of(BatchOf(log, ds[|ds| - 1]), k);
      if last != [] then last else Shown(log, ds[..|ds| - 1], k)
  }

  /** A stretch of a longer sequence. */
  ghost predicate PartOf<T(!new)>(part: seq<T>, whole: seq<T>) {
    exists a, b :: whole == a + part + b
  }

  lemma {:induction false} ReachedWithin(log: seq<Trade>, ds: seq<Delivery>)
    requires Legal(log, ds)
    ensures Reached(ds) <= |log|
    decreases |ds|
  {
    if ds != [] {
      ReachedWithin(log, ds[..|ds| - 1]);
    }
  }

  /** How one delivery moves the specification of a row. */
  lemma SpecMoves(log: seq<Trade>, ds: seq<Delivery>, k: Key)
    requires Legal(log, ds) && ds != []
    ensures var init := ds[..|ds| - 1]; var last := Of(BatchOf(log, ds[|ds| - 1]), k);
            && PartOf(last, Spec(log, ds, k))
            && Spec(log, init, k) <= Spec(log, ds, k)
            && (last == [] ==> Spec(log, ds, k) == Spec(log, init, k))
            && (Spec(log, init, k) == [] ==> last <= Spec(log, ds, k))
  {
    hide Of;
    var init, d := ds[..|ds| - 1], ds[|ds| - 1];
    ReachedWithin(log, init);
    var r, r1 := Reached(init), Reached(ds);
    var last := Of(log[d.lo..d.hi], k);
    assert log[..r1] == log[..r] + log[r..r1] && log[..r1] == log[..d.lo] + log[d.lo..r1];
    assert log[d.lo..r1] == log[d.lo..d.hi] + log[d.hi..r1] && log[..r] == log[..d.lo] + log[d.lo..r];
    OfConcat(log[..r], log[r..r1], k);
    OfConcat(log[..d.lo], log[d.lo..r1], k);
    OfConcat(log[d.lo..d.hi], log[d.hi..r1], k);
    OfConcat(log[..d.lo], log[d.lo..r], k);
    assert Of(log[..r1], k) == Of(log[..d.lo], k) + last + Of(log[d.hi..r1], k);
    if d.hi > r {
      assert log[d.lo..d.hi] == log[d.lo..r] + log[r..r1];
      OfConcat(log[d.lo..r], log[r..r1], k);
    } else {
      assert log[r..r1] == [];
      NoneOf(k);
    }
  }

  lemma NoneOf(k: Key)
    ensures Of([], k) == []
  {
  }

  /** What one delivery writes to a row. */
  lemma WriteMoves(log: seq<Trade>, ds: seq<Delivery>, k: Key)
    requires ds != []
    ensures var before, now := Written(log, ds[..|ds| - 1]), Written(log, ds);
            var last := Of(BatchOf(log, ds[|ds| - 1]), k);
            && (k in now <==> k in before || last != [])
            && (last == [] && k in before ==> now[k] == before[k])
            && (last != [] ==> now[k] == (if k in before then Ohlcv(last).(open := before[k].open) else Ohlcv(last)))
  {
    BucketAt(BatchOf(log, ds[|ds| - 1]), k);
  }

  lemma FirstKept(a: seq<Trade>, b: seq<Trade>)
    requires a <= b && a != []
    ensures Ohlcv(b).open == Ohlcv(a).open
  {
    OhlcvMeans(a);
    OhlcvMeans(b);
  }

  /**
   Whatever the deliveries and the quantities: there is a row exactly for the
   minutes read, its open is the first trade of the minute, and the rest of it
   is the candle of the trades shown.
   */
  lemma {:induction false} RowShows(log: seq<Trade>, ds: seq<Delivery>, k: Key)
    requires Legal(log, ds)
    ensures k in Written(log, ds) <==> Spec(log, ds, k) != []
    ensures Shown(log, ds, k) == [] <==> Spec(log, ds, k) == []
    ensures PartOf(Shown(log, ds, k), Spec(log, ds, k))
    ensures Spec(log, ds, k) != [] ==>
              Written(log, ds)[k] == Ohlcv(Shown(log, ds, k)).(open := Ohlcv(Spec(log, ds, k)).open)
    decreases |ds|
  {
    hide Of, Buckets, Ohlcv;
    if ds == [] {
      NoneOf(k);
      var none: seq<Trade> := [];
      assert log[..0] == none && none == none + none + none;
    } else {
      var init := ds[..|ds| - 1];
      RowShows(log, init, k);
      SpecMoves(log, ds, k);
      WriteMoves(log, ds, k);
      var last := Of(BatchOf(log, ds[|ds| - 1]), k);
      if last != [] {
        if Spec(log, init, k) != [] {
          FirstKept(Spec(log, init, k), Spec(log, ds, k));
        } else {
          FirstKept(last, Spec(log, ds, k));
        }
      }
    }
  }

  lemma PartVolume(part: seq<Trade>, whole: seq<Trade>)
    requires PartOf(part, whole) && AllPositive(whole)
    ensures Volume(part) <= Volume(whole) && (part != whole ==> Volume(part) < Volume(whole))
  {
    var a, b :| whole == a + part + b;
    VolumeConcat(a + part, b);
    VolumeConcat(a, part);
    assert forall t :: t in a || t in b ==> t in whole;
    VolumePositive(a);
    VolumePositive(b);
    if a == [] && b == [] {
      assert whole == part;
    }
  }

  /**
   Row by row, with positive quantities: a row is the candle of its minute's
   trades read so far if and only if the last delivery that had any of them had
   all of them; otherwise it shows too little volume.
   */
  lemma RowFollowsLog(log: seq<Trade>, ds: seq<Delivery>, k: Key)
    requires Legal(log, ds) && AllPositive(log)
    ensures k in Written(log, ds) <==> Spec(log, ds, k) != []
    ensures Spec(log, ds, k) != [] ==>
              && (Written(log, ds)[k] == Ohlcv(Spec(log, ds, k)) <==> Shown(log, ds, k) == Spec(log, ds, k))
              && Written(log, ds)[k].volume <= Ohlcv(Spec(log, ds, k)).volume
              && (Shown(log, ds, k) != Spec(log, ds, k) ==> Written(log, ds)[k].volume < Ohlcv(Spec(log, ds, k)).volume)
  {
    RowShows(log, ds, k);
    var spec, shown := Spec(log, ds, k), Shown(log, ds, k);
    OfMembers(ReadSoFar(log, ds), k);
    hide Of, Written, Shown;
    PartVolume(shown, spec);
    if spec != [] {
      OhlcvMeans(spec);
      OhlcvMeans(shown);
    }
  }

  /** Every minute's last delivery had all of its trades. */
  ghost predicate ShownWhole(log: seq<Trade>, ds: seq<Delivery>) {
    forall k :: Shown(log, ds, k) == Spec(log, ds, k)
  }

  /** The table is that of the log as far as it has been read if and only if every minute is shown whole. */
  lemma TableFollowsLog(log: seq<Trade>, ds: seq<Delivery>)
    requires Legal(log, ds) && AllPositive(log)
    ensures Written(log, ds) == Buckets(ReadSoFar(log, ds)) <==> ShownWhole(log, ds)
  {
    hide Of, Written, Shown, Buckets;
    var table, spec := Written(log, ds), Buckets(ReadSoFar(log, ds));
    forall k
      ensures (k in table <==> k in spec) && (k in spec ==> (table[k] == spec[k] <==> Shown(log, ds, k) == Spec(log, ds, k)))
      ensures k !in spec ==> Shown(log, ds, k) == Spec(log, ds, k)
    {
      RowFollowsLog(log, ds, k);
      RowShows(log, ds, k);
      BucketAt(ReadSoFar(log, ds), k);
    }
    if table == spec {
      forall k ensures Shown(log, ds, k) == Spec(log, ds, k) {
        assert k in spec ==> table[k] == spec[k];
      }
    }
  }

  /** Whatever came before and whatever the quantities, a delivery with all of a minute's trades puts its row right. */
  lemma WholeDeliveryHeals(log: seq<Trade>, ds: seq<Delivery>, k: Key)
    requires Legal(log, ds) && ds != [] && Spec(log, ds, k) != []
    requires Of(BatchOf(log, ds[|ds| - 1]), k) == Spec(log, ds, k)
    ensures k in Written(log, ds) && Written(log, ds)[k] == Ohlcv(Spec(log, ds, k))
  {
    RowShows(log, ds, k);
  }

  /**
   Two trades of one minute. Delivered one after the other the row is wrong; if
   the consumer is taken back in between and gets both at once, it is right.
   */
  lemma RewindHeals(a: Trade, b: Trade)
    requires KeyOf(a) == KeyOf(b) && a.qty > 0 && b.qty > 0
    ensures var apart, again := [Delivery(0, 1), Delivery(1, 2)], [Delivery(0, 1), Delivery(0, 2)];
            && Legal([a, b], apart) && Legal([a, b], again)
            && !ShownWhole([a, b], apart) && ShownWhole([a, b], again)
  {
    TwoRead(a, b, Delivery(1, 2));
    TwoRead(a, b, Delivery(0, 2));
    hide Legal, Shown, Spec;
    ApartIsShort(a, b);
    TogetherIsWhole(a, b);
  }

  /** The first trade alone, then a batch that ends with the second. */
  lemma TwoRead(a: Trade, b: Trade, d: Delivery)
    requires d.lo <= 1 && d.hi == 2
    ensures Legal([a, b], [Delivery(0, 1), d]) && ReadSoFar([a, b], [Delivery(0, 1), d]) == [a, b]
    ensures forall k :: Shown([a, b], [Delivery(0, 1), d], k)
                        == (if Of([a, b][d.lo..2], k) != [] then Of([a, b][d.lo..2], k) else Of([a], k))
  {
    var log, one := [a, b], [Delivery(0, 1)];
    var ds := [Delivery(0, 1), d];
    assert ds[..1] == one && one[..0] == [] && log[0..1] == [a] && log[..2] == log;
    assert Legal(log, []) && Reached([]) == 0 && Legal(log, one) && Reached(one) == 1 && Reached(ds) == 2;
    forall k ensures Shown(log, ds, k) == (if Of(log[d.lo..2], k) != [] then Of(log[d.lo..2], k) else Of([a], k)) {
      hide Of;
      assert Shown(log, one, k) == if Of([a], k) != [] then Of([a], k) else Shown(log, [], k);
    }
  }

  lemma ApartIsShort(a: Trade, b: Trade)
    requires KeyOf(a) == KeyOf(b)
    ensures !ShownWhole([a, b], [Delivery(0, 1), Delivery(1, 2)])
  {
    var k := KeyOf(a);
    TwoRead(a, b, Delivery(1, 2));
    OneOf(a);
    OneOf(b);
    OfConcat([a], [b], k);
    assert [a, b] == [a] + [b] && [a, b][1..2] == [b];
    hide Legal, Shown, ReadSoFar, Of;
    assert Spec([a, b], [Delivery(0, 1), Delivery(1, 2)], k) == [a] + [b];
  }

  lemma TogetherIsWhole(a: Trade, b: Trade)
    ensures ShownWhole([a, b], [Delivery(0, 1), Delivery(0, 2)])
  {
    TwoRead(a, b, Delivery(0, 2));
    assert [a, b] == [a] + [b] && [a, b][0..2] == [a, b];
    hide Legal, Shown, ReadSoFar, Of;
    forall k ensures Shown([a, b], [Delivery(0, 1), Delivery(0, 2)], k) == Spec([a, b], [Delivery(0, 1), Delivery(0, 2)], k) {
      OfConcat([a], [b], k);
    }
  }

  lemma OneOf(t: Trade)
    ensures Of([t], KeyOf(t)) == [t]
  {
    OfAppend([], t, KeyOf(t));
    assert [] + [t] == [t];
  }

  // ---------------------------------------------------- whole batches, again

  function Copies(d: Delivery, n: nat): seq<Delivery> {
    if n == 0 then [] else Copies(d, n - 1) + [d]
  }

  /** The deliveries of batches that come once and then again unchanged. */
  function RangesOf(bs: seq<seq<Trade>>, again: seq<nat>): seq<Delivery>
    requires |again| == |bs|
  {
    if bs == [] then []
    else
      var init := bs[..|bs| - 1];
      RangesOf(init, again[..|bs| - 1]) + Copies(Delivery(|Concat(init)|, |Concat(bs)|), 1 + again[|bs| - 1])
  }

  /** Only the part of the log that was delivered matters. */
  lemma {:induction false} LongerLog(log: seq<Trade>, more: seq<Trade>, ds: seq<Delivery>)
    requires Legal(log, ds)
    ensures Legal(log + more, ds) && Written(log + more, ds) == Written(log, ds)
    decreases |ds|
  {
    if ds != [] {
      LongerLog(log, more, ds[..|ds| - 1]);
      var d := ds[|ds| - 1];
      assert (log + more)[d.lo..d.hi] == log[d.lo..d.hi];
    }
  }

  lemma OneMore(log: seq<Trade>, ds: seq<Delivery>, d: Delivery)
    requires Legal(log, ds) && d.lo <= d.hi <= |log| && d.lo <= Reached(ds) <= d.hi
    ensures Legal(log, ds + [d]) && Reached(ds + [d]) == d.hi
    ensures Written(log, ds + [d]) == Flush(Written(log, ds), Buckets(log[d.lo..d.hi]))
  {
    hide Flush, Buckets;
    assert (ds + [d])[..|ds|] == ds;
  }

  lemma {:induction false} CopiesRepeat(log: seq<Trade>, ds: seq<Delivery>, d: Delivery, n: nat)
    requires Legal(log, ds) && d.lo <= d.hi <= |log| && d.lo <= Reached(ds) <= d.hi
    ensures Legal(log, ds + Copies(d, n)) && Reached(ds + Copies(d, n)) == if n == 0 then Reached(ds) else d.hi
    ensures Written(log, ds + Copies(d, n)) == Repeat(Written(log, ds), log[d.lo..d.hi], n)
    decreases n
  {
    hide Flush, Buckets, Legal, Reached, Written;
    if n == 0 {
      assert ds + Copies(d, 0) == ds;
    } else {
      CopiesRepeat(log, ds, d, n - 1);
      OneMore(log, ds + Copies(d, n - 1), d);
      assert ds + Copies(d, n) == ds + Copies(d, n - 1) + [d];
    }
  }

  lemma NothingDelivered()
    ensures Legal([], []) && Reached([]) == 0 && Written([], []) == map[]
  {
  }

  /** Batches that are only ever repeated unchanged, before the next one, are the special case of `TableIsExact`. */
  lemma {:induction false} BatchesAreDeliveries(bs: seq<seq<Trade>>, again: seq<nat>)
    requires |again| == |bs|
    ensures Legal(Concat(bs), RangesOf(bs, again)) && Reached(RangesOf(bs, again)) == |Concat(bs)|
    ensures Written(Concat(bs), RangesOf(bs, again)) == Process(bs, again)
    decreases |bs|
  {
    hide Written, Legal, Reached, Repeat, Copies;
    if bs == [] {
      NothingDelivered();
    } else {
      var init, last := bs[..|bs| - 1], bs[|bs| - 1];
      var ds := RangesOf(init, again[..|bs| - 1]);
      BatchesAreDeliveries(init, again[..|bs| - 1]);
      LongerLog(Concat(init), last, ds);
      CopiesRepeat(Concat(bs), ds, Delivery(|Concat(init)|, |Concat(bs)|), 1 + again[|bs| - 1]);
      assert Concat(bs)[|Concat(init)|..|Concat(bs)|] == last;
    }
  }

  /** There the minutes are shown whole exactly if each lies in one batch. */
  lemma ApartIsWhole(bs: seq<seq<Trade>>, again: seq<nat>)
    requires |again| == |bs| && AllPositive(Concat(bs))
    ensures ShownWhole(Concat(bs), RangesOf(bs, again)) <==> MinutesApart(bs)
  {
    hide Written, Process, Shown, Spec, Buckets, RangesOf;
    BatchesAreDeliveries(bs, again);
    TableFollowsLog(Concat(bs), RangesOf(bs, again));
    TableIsExact(bs, again);
    assert Concat(bs)[..|Concat(bs)|] == Concat(bs);
  }
}
