/**
 The outbox relay: fetch the oldest unprocessed rows, publish each, mark it.
 Rows are in id order and keep their index as id; new ones are appended at any
 time, and the relay may die at any point.
 */
module OutboxRelay {

  datatype OutboxRow<P> = OutboxRow(payload: P, processed: bool, attempts: nat)

  type Table<P> = seq<OutboxRow<P>>

  /** The table, everything the topics have received (by row id), and what is left of the batch being drained. */
  datatype Relay<P> = Relay(table: Table<P>, published: seq<nat>, batch: seq<nat>)

  /** Ids of the unprocessed rows from n on, in order. */
  function Unprocessed<P>(table: Table<P>, n: nat): seq<nat>
    decreases |table| - n
  {
    if n >= |table| then []
    else (if table[n].processed then [] else [n]) + Unprocessed(table, n + 1)
  }

  lemma NextUnprocessed<P>(table: Table<P>, n: nat, before: seq<nat>)
    requires n < |table|
    ensures before + Unprocessed(table, n) == (if table[n].processed then before else before + [n]) + Unprocessed(table, n + 1)
  {
    var rest := Unprocessed(table, n + 1);
    assert before + ([n] + rest) == before + [n] + rest && before + ([] + rest) == before + rest;
  }

  lemma NoneBeyond<P>(table: Table<P>, n: nat, events: seq<nat>)
    ensures (events + Unprocessed(table, n))[..|events|] == events
    ensures n >= |table| ==> events + Unprocessed(table, n) == events
  {
  }

  function Take<T>(s: seq<T>, n: nat): seq<T> {
    if n <= |s| then s[..n] else s
  }

  /** `findMany`: unprocessed, by id, at most `batchSize`. */
  function Fetched<P>(table: Table<P>, batchSize: nat): seq<nat> {
    Take(Unprocessed(table, 0), batchSize)
  }

  /** What becomes of one row. */
  datatype Fate =
    | Delivered    // sent and marked
    | MarkFailed   // sent, but the update failed
    | SendFailed   // nothing reached the topic
    | AckLost      // it reached the topic, but the send reported an error

  function Mark<P>(table: Table<P>, id: nat): Table<P> {
    if id < |table| then table[id := table[id].(processed := true)] else table
  }

  function Bump<P>(table: Table<P>, id: nat): Table<P> {
    if id < |table| then table[id := table[id].(attempts := table[id].attempts + 1)] else table
  }

  /** One iteration of the loop in `drainOnce`. */
  function Next<P>(r: Relay<P>, fate: Fate): Relay<P>
    requires r.batch != []
  {
    var id := r.batch[0];
    var sent := if fate.SendFailed? then r.published else r.published + [id];
    Relay(if fate.Delivered? then Mark(r.table, id) else Bump(r.table, id), sent, r.batch[1..])
  }

  datatype Action<P> =
    | Append(payload: P)
    | Fetch(batchSize: nat)
    | Advance(fate: Fate)
    | Crash(afterSend: bool)   // a new relay starts with no batch

  function Step<P>(r: Relay<P>, a: Action<P>): Relay<P> {
    match a {
      case Append(p) => r.(table := r.table + [OutboxRow(p, false, 0)])
      case Fetch(n) => if r.batch == [] then r.(batch := Fetched(r.table, n)) else r
      case Advance(f) => if r.batch == [] then r else Next(r, f)
      case Crash(afterSend) =>
        if r.batch == [] then r
        else Relay(r.table, if afterSend then r.published + [r.batch[0]] else r.published, [])
    }
  }

  function Run<P>(r: Relay<P>, actions: seq<Action<P>>): Relay<P>
    decreases |actions|
  {
    if actions == [] then r else Run(Step(r, actions[0]), actions[1..])
  }

  function Empty<P>(): Relay<P> {
    Relay([], [], [])
  }

  // -------------------------------------------------------------- the worker

  /** `drainOnce` as a run of the loop body, one fate per row. */
  function DrainBatch<P>(r: Relay<P>, fate: nat -> Fate, k: nat): Relay<P>
    decreases |r.batch|
  {
    if r.batch == [] then r else DrainBatch(Next(r, fate(k)), fate, k + 1)
  }

  class OutboxRelayWorker<P> {
    var table: Table<P>
    var published: seq<nat>

    constructor ()
      ensures table == [] && published == []
    {
      table, published := [], [];
    }

    /** `OutboxPublisher.publish`. */
    method Publish(payload: P)
      modifies `table
      ensures table == old(table) + [OutboxRow(payload, false, 0)]
    {
      table := table + [OutboxRow(payload, false, 0)];
    }

    method FetchUnprocessed(batchSize: nat) returns (events: seq<nat>)
      ensures events == Fetched(table, batchSize)
    {
      hide Unprocessed;
      events := [];
      var i := 0;
      while i < |table| && |events| < batchSize
        invariant i <= |table| && |events| <= batchSize
        invariant Unprocessed(table, 0) == events + Unprocessed(table, i)
      {
        NextUnprocessed(table, i, events);
        if !table[i].processed {
          events := events + [i];
        }
        i := i + 1;
      }
      NoneBeyond(table, i, events);
    }

    /** Publish one row and mark it, or count the failed attempt. */
    method RelayRow(id: nat, result: Fate)
      modifies this
      ensures published == (if result.SendFailed? then old(published) else old(published) + [id])
      ensures table == (if result.Delivered? then Mark(old(table), id) else Bump(old(table), id))
    {
      if result != SendFailed {
        published := published + [id];
      }
      if id < |table| {
        if result == Delivered {
          table := table[id := table[id].(processed := true)];
        } else {
          table := table[id := table[id].(attempts := table[id].attempts + 1)];
        }
      }
    }

    method DrainOnce(batchSize: nat, fate: nat -> Fate) returns (drained: nat)
      modifies this
      ensures var r := DrainBatch(Relay(old(table), old(published), Fetched(old(table), batchSize)), fate, 0);
              table == r.table && published == r.published
      ensures drained == |Fetched(old(table), batchSize)|
    {
      hide Mark, Bump, Fetched;
      var events := FetchUnprocessed(batchSize);
      ghost var goal := DrainBatch(Relay(table, published, events), fate, 0);
      var i := 0;
      while i < |events|
        invariant i <= |events|
        invariant DrainBatch(Relay(table, published, events[i..]), fate, i) == goal
      {
        assert events[i..][0] == events[i] && events[i..][1..] == events[i + 1..];
        RelayRow(events[i], fate(i));
        i := i + 1;
      }
      drained := |events|;
    }
  }

  // -------------------------------------------------------------- properties

  /** The sequence with repeats erased. */
  function Firsts(p: seq<nat>): seq<nat> {
    if p == [] then []
    else
      var init, last := p[..|p| - 1], p[|p| - 1];
      if last in init then Firsts(init) else Firsts(init) + [last]
  }

  lemma FirstsAppend(p: seq<nat>, x: nat)
    ensures Firsts(p + [x]) == if x in p then Firsts(p) else Firsts(p) + [x]
  {
    assert (p + [x])[..|p|] == p;
  }

  lemma {:induction false} FirstsMembers(p: seq<nat>)
    ensures forall x :: x in Firsts(p) <==> x in p
    ensures |Firsts(p)| <= |p|
    decreases |p|
  {
    if p != [] {
      FirstsMembers(p[..|p| - 1]);
      assert p == p[..|p| - 1] + [p[|p| - 1]];
    }
  }

  function Repeats(p: seq<nat>): nat {
    FirstsMembers(p);
    |p| - |Firsts(p)|
  }

  function UpTo(k: nat): seq<nat> {
    seq(k, i requires 0 <= i < k => i)
  }

  /** Published rows that are still unprocessed: each is owed one repeat at most. */
  function Owed<P>(r: Relay<P>): set<nat> {
    set i | 0 <= i < |r.table| && !r.table[i].processed && i in r.published
  }

  /** Publishes that were not followed by the mark. */
  function Faults<P>(actions: seq<Action<P>>): nat {
    if actions == [] then 0
    else Faults(actions[1..]) + match actions[0] {
      case Advance(f) => if f.MarkFailed? || f.AckLost? then 1 else 0
      case Crash(afterSend) => if afterSend then 1 else 0
      case Append(_) => 0
      case Fetch(_) => 0
    }
  }

  predicate Increasing(s: seq<nat>) {
    forall i, j :: 0 <= i < j < |s| ==> s[i] < s[j]
  }

  /** The batch lists unprocessed rows; everything processed was published. */
  ghost predicate RelayOk<P>(r: Relay<P>) {
    && Increasing(r.batch)
    && (forall i :: 0 <= i < |r.batch| ==> r.batch[i] < |r.table| && !r.table[r.batch[i]].processed)
    && (forall i :: 0 <= i < |r.table| && r.table[i].processed ==> i in r.published)
    && (forall i :: i in r.published ==> i < |r.table|)
  }

  lemma {:induction false} UnprocessedExact<P>(table: Table<P>, n: nat)
    ensures Increasing(Unprocessed(table, n))
    ensures forall i :: i in Unprocessed(table, n) <==> n <= i < |table| && !table[i].processed
    decreases |table| - n
  {
    if n < |table| {
      UnprocessedExact(table, n + 1);
      ConsIncreasing(n, Unprocessed(table, n + 1));
    }
  }

  lemma ConsIncreasing(x: nat, s: seq<nat>)
    requires Increasing(s) && forall y :: y in s ==> x < y
    ensures Increasing([x] + s) && Increasing([] + s) && forall y :: y in [x] + s <==> y == x || y in s
    ensures forall y :: y in [] + s <==> y in s
  {
    forall i | 0 <= i < |s| ensures x < s[i] {
      assert s[i] in s;
    }
  }

  /** A fetched batch holds the oldest unprocessed rows: whatever is older is processed or in the batch before it. */
  lemma FetchedExact<P>(table: Table<P>, batchSize: nat)
    ensures var b := Fetched(table, batchSize);
            && Increasing(b)
            && (forall i :: 0 <= i < |b| ==> b[i] < |table| && !table[b[i]].processed)
            && (forall i, j :: 0 <= i < |b| && 0 <= j < b[i] ==> table[j].processed || j in b[..i])
  {
    hide Unprocessed;
    UnprocessedExact(table, 0);
    var u := Unprocessed(table, 0);
    var b := Fetched(table, batchSize);
    assert b <= u;
    forall i | 0 <= i < |b| ensures b[i] < |table| && !table[b[i]].processed {
      assert u[i] in u;
    }
    forall i, j | 0 <= i < |b| && 0 <= j < b[i] ensures table[j].processed || j in b[..i] {
      assert u[i] in u;
      if !table[j].processed {
        SmallerComesBefore(u, b, i, j);
      }
    }
  }

  lemma SmallerComesBefore(u: seq<nat>, b: seq<nat>, i: nat, j: nat)
    requires Increasing(u) && b <= u && i < |b| && j in u && j < b[i]
    ensures j in b[..i]
  {
  }

  /** The potential: repeats so far plus repeats still owed never exceed the faults. */
  ghost predicate Bounded<P>(r: Relay<P>, faults: int) {
    Repeats(r.published) + |Owed(r)| <= faults
  }

  /** The row at id has just been sent, and marked or not; the others are as before. */
  ghost predicate JustSent<P>(r: Relay<P>, r1: Relay<P>, id: nat, marked: bool) {
    && id < |r.table| && !r.table[id].processed
    && r1.published == r.published + [id] && |r1.table| == |r.table|
    && (forall i :: 0 <= i < |r.table| && i != id ==> r1.table[i].processed == r.table[i].processed)
    && r1.table[id].processed == marked
  }

  lemma SentOwes<P>(r: Relay<P>, r1: Relay<P>, id: nat, marked: bool)
    requires JustSent(r, r1, id, marked)
    ensures Owed(r1) == if marked then Owed(r) - {id} else Owed(r) + {id}
    ensures id in Owed(r) <==> id in r.published
  {
  }

  lemma SentCounts<P>(r: Relay<P>, r1: Relay<P>, id: nat, marked: bool)
    requires JustSent(r, r1, id, marked)
    ensures Repeats(r1.published) + |Owed(r1)| == Repeats(r.published) + |Owed(r)| + if marked then 0 else 1
  {
    hide Owed, Firsts;
    FirstsAppend(r.published, id);
    SentOwes(r, r1, id, marked);
    if id in r.published {
      assert Owed(r) + {id} == Owed(r);
    } else {
      assert Owed(r) - {id} == Owed(r);
    }
  }

  lemma StepOk<P>(r: Relay<P>, a: Action<P>)
    requires RelayOk(r)
    ensures RelayOk(Step(r, a))
  {
    hide Unprocessed;
    if a.Fetch? {
      FetchedExact(r.table, a.batchSize);
    }
  }

  /** A step either puts the head of the batch on its topic or publishes nothing and owes the same. */
  lemma StepOwes<P>(r: Relay<P>, a: Action<P>)
    requires RelayOk(r)
    ensures if Sends(r, a) then JustSent(r, Step(r, a), r.batch[0], a.Advance? && a.fate.Delivered?)
            else Step(r, a).published == r.published && Owed(Step(r, a)) == Owed(r)
  {
    hide Unprocessed, Increasing;
    if r.batch != [] {
      assert r.batch[0] < |r.table|;
    }
  }

  lemma OneFault<P>(r: Relay<P>, a: Action<P>)
    ensures Sends(r, a) ==> Faults([a]) == if a.Advance? && a.fate.Delivered? then 0 else 1
  {
    assert Faults([a][1..]) == 0;
  }

  lemma StepBounded<P>(r: Relay<P>, a: Action<P>, faults: nat)
    requires RelayOk(r) && Bounded(r, faults)
    ensures RelayOk(Step(r, a)) && Bounded(Step(r, a), faults + Faults([a]))
  {
    hide RelayOk, Step, Faults, Owed, Firsts, JustSent;
    StepOk(r, a);
    StepOwes(r, a);
    OneFault(r, a);
    if Sends(r, a) {
      SentCounts(r, Step(r, a), r.batch[0], a.Advance? && a.fate.Delivered?);
    }
  }

  lemma {:induction false} RunBounded<P>(r: Relay<P>, actions: seq<Action<P>>, faults: nat)
    requires RelayOk(r) && Bounded(r, faults)
    ensures RelayOk(Run(r, actions)) && Bounded(Run(r, actions), faults + Faults(actions))
    decreases |actions|
  {
    if actions != [] {
      StepBounded(r, actions[0], faults);
      assert [actions[0]][1..] == [] && Faults(actions) == Faults([actions[0]]) + Faults(actions[1..]);
      RunBounded(Step(r, actions[0]), actions[1..], faults + Faults([actions[0]]));
    }
  }

  /** In every run rows are published again at most as often as a publish was not followed by its mark, and every processed row was published. */
  lemma RepeatsAreBounded<P>(actions: seq<Action<P>>)
    ensures var r := Run(Empty(), actions);
            && Repeats(r.published) <= Faults(actions)
            && forall i :: 0 <= i < |r.table| && r.table[i].processed ==> i in r.published
  {
    assert Owed(Empty<P>()) == {};
    RunBounded(Empty(), actions, 0);
  }

  // ------------------------------------------------------------ order of rows

  /** Everything older than a row of the batch has been published or precedes it in the batch. */
  ghost predicate NothingSkipped<P>(r: Relay<P>) {
    forall i, j :: 0 <= i < |r.batch| && 0 <= j < r.batch[i] ==> j in r.published || j in r.batch[..i]
  }

  /** This step puts the head of the batch on its topic, whether it learns so or not. */
  predicate Sends<P>(r: Relay<P>, a: Action<P>) {
    r.batch != [] && ((a.Advance? && !a.fate.SendFailed?) || (a.Crash? && a.afterSend))
  }

  /** Some row of the current batch could not be sent and had never been published. */
  function LeftBehind<P>(r: Relay<P>, behind: bool, a: Action<P>): bool {
    if r.batch == [] then behind && !a.Fetch?
    else match a {
      case Advance(f) => behind || (f.SendFailed? && r.batch[0] !in r.published)
      case Crash(_) => false
      case Append(_) => behind
      case Fetch(_) => behind
    }
  }

  /** A row not yet published is sent behind a failed unpublished row of its batch. */
  predicate Overtakes<P>(r: Relay<P>, behind: bool, a: Action<P>) {
    Sends(r, a) && behind && r.batch[0] !in r.published
  }

  /** No step of the run overtakes. */
  predicate Orderly<P>(r: Relay<P>, behind: bool, actions: seq<Action<P>>)
    decreases |actions|
  {
    actions == [] ||
    (!Overtakes(r, behind, actions[0]) && Orderly(Step(r, actions[0]), LeftBehind(r, behind, actions[0]), actions[1..]))
  }

  /** The first k rows are published, and the batch goes on from there or has left row k behind. */
  ghost predicate InOrder<P>(r: Relay<P>, behind: bool, k: nat) {
    && RelayOk(r) && k <= |r.table| && Firsts(r.published) == UpTo(k)
    && (r.batch != [] ==> if behind then k < r.batch[0] else NothingSkipped(r))
  }

  lemma PublishedUpTo(p: seq<nat>, k: nat)
    requires Firsts(p) == UpTo(k)
    ensures forall i: nat :: i in p <==> i < k
  {
    FirstsMembers(p);
    forall i: nat ensures i in p <==> i < k {
      if i < k {
        assert UpTo(k)[i] == i;
      }
    }
  }

  /** The head of a batch that left nothing behind is a repeat or the very next row of the table. */
  lemma HeadIsNext<P>(r: Relay<P>, k: nat)
    requires InOrder(r, false, k) && r.batch != []
    ensures r.batch[0] <= k && (r.batch[0] in r.published <==> r.batch[0] < k)
  {
    PublishedUpTo(r.published, k);
    var before := r.batch[..0];
    assert before == [];
    forall j | 0 <= j < r.batch[0] ensures j in r.published {
      assert j in r.published || j in before;
    }
    assert r.batch[0] > k ==> k in r.published;
  }

  /** Sending the head keeps the order, unless it overtakes. */
  lemma SentInOrder<P>(r: Relay<P>, behind: bool, k: nat) returns (k1: nat)
    requires InOrder(r, behind, k) && r.batch != [] && (behind ==> r.batch[0] in r.published)
    ensures k <= k1 <= |r.table| && Firsts(r.published + [r.batch[0]]) == UpTo(k1)
  {
    PublishedUpTo(r.published, k);
    FirstsAppend(r.published, r.batch[0]);
    k1 := k;
    if !behind {
      HeadIsNext(r, k);
      if r.batch[0] == k {
        k1 := k + 1;
        assert UpTo(k) + [k] == UpTo(k + 1);
      }
    }
  }

  lemma NextSkipsNothing<P>(r: Relay<P>, r1: Relay<P>)
    requires NothingSkipped(r) && r.batch != [] && Increasing(r.batch)
    requires r1.batch == r.batch[1..] && r.batch[0] in r1.published
    requires forall i :: i in r.published ==> i in r1.published
    ensures NothingSkipped(r1)
  {
    forall i, j | 0 <= i < |r1.batch| && 0 <= j < r1.batch[i] ensures j in r1.published || j in r1.batch[..i] {
      assert r1.batch[i] == r.batch[i + 1];
      assert j in r.published || j in r.batch[..i + 1];
      if j in r.batch[..i + 1] && j != r.batch[0] {
        var n :| 0 <= n < i + 1 && r.batch[n] == j;
        assert r1.batch[..i][n - 1] == j;
      }
    }
  }

  lemma FetchInOrder<P>(r: Relay<P>, n: nat)
    requires RelayOk(r) && r.batch == []
    ensures NothingSkipped(r.(batch := Fetched(r.table, n)))
  {
    FetchedExact(r.table, n);
    hide Fetched;
    var b := Fetched(r.table, n);
    forall i, j | 0 <= i < |b| && 0 <= j < b[i] ensures j in r.published || j in b[..i] {
      assert b[i] < |r.table|;
      assert r.table[j].processed || j in b[..i];
    }
  }

  lemma AdvanceInOrder<P>(r: Relay<P>, behind: bool, f: Fate, k: nat) returns (k1: nat)
    requires InOrder(r, behind, k) && r.batch != [] && !Overtakes(r, behind, Advance(f))
    ensures InOrder(Next(r, f), LeftBehind(r, behind, Advance(f)), k1)
  {
    hide Firsts;
    var r1 := Next(r, f);
    StepOk(r, Advance(f));
    PublishedUpTo(r.published, k);
    k1 := k;
    if !f.SendFailed? {
      k1 := SentInOrder(r, behind, k);
    }
    if !behind {
      HeadIsNext(r, k);
      if !f.SendFailed? || r.batch[0] in r.published {
        NextSkipsNothing(r, r1);
      }
    }
  }

  lemma StepInOrder<P>(r: Relay<P>, behind: bool, a: Action<P>, k: nat) returns (k1: nat)
    requires InOrder(r, behind, k) && !Overtakes(r, behind, a)
    ensures InOrder(Step(r, a), LeftBehind(r, behind, a), k1)
  {
    hide Firsts, Fetched, Increasing;
    k1 := k;
    StepOk(r, a);
    match a {
      case Append(p) =>
      case Fetch(n) =>
        if r.batch == [] {
          FetchInOrder(r, n);
        }
      case Advance(f) =>
        if r.batch != [] {
          k1 := AdvanceInOrder(r, behind, f, k);
        }
      case Crash(afterSend) =>
        if r.batch != [] && afterSend {
          k1 := SentInOrder(r, behind, k);
        }
    }
  }

  /** How often relaying this row failed, or seemed to. */
  function FailuresOf<P>(r: Relay<P>, actions: seq<Action<P>>, id: nat): nat
    decreases |actions|
  {
    if actions == [] then 0
    else
      var a := actions[0];
      (if a.Advance? && a.fate != Delivered && r.batch != [] && r.batch[0] == id then 1 else 0)
      + FailuresOf(Step(r, a), actions[1..], id)
  }

  /** `attempts` of a row counts exactly that, and rows keep their payload. */
  lemma {:induction false} AttemptsAreFailures<P>(r: Relay<P>, actions: seq<Action<P>>, id: nat)
    requires RelayOk(r) && id < |r.table|
    ensures id < |Run(r, actions).table| && Run(r, actions).table[id].payload == r.table[id].payload
    ensures Run(r, actions).table[id].attempts == r.table[id].attempts + FailuresOf(r, actions, id)
    decreases |actions|
  {
    hide Unprocessed, RelayOk;
    if actions != [] {
      StepOk(r, actions[0]);
      HeadExists(r);
      AttemptsAreFailures(Step(r, actions[0]), actions[1..], id);
    }
  }

  lemma HeadExists<P>(r: Relay<P>)
    requires RelayOk(r)
    ensures r.batch != [] ==> r.batch[0] < |r.table|
  {
  }

  /** Some row came first out of its turn. */
  ghost predicate OutOfOrder(p: seq<nat>) {
    exists i :: 0 <= i < |Firsts(p)| && Firsts(p)[i] != i
  }

  lemma OutOfOrderIsNoPrefix(p: seq<nat>, k: nat)
    requires OutOfOrder(p)
    ensures Firsts(p) != UpTo(k)
  {
  }

  /** An overtaking row comes out of its turn. */
  lemma OvertakenIsOutOfOrder<P>(r: Relay<P>, a: Action<P>, k: nat)
    requires InOrder(r, true, k) && Overtakes(r, true, a)
    ensures OutOfOrder(Step(r, a).published)
  {
    FirstsAppend(r.published, r.batch[0]);
    assert Firsts(r.published + [r.batch[0]])[k] == r.batch[0];
  }

  /** Nothing published later puts it right. */
  lemma {:induction false} StaysOutOfOrder<P>(r: Relay<P>, actions: seq<Action<P>>)
    requires OutOfOrder(r.published)
    ensures OutOfOrder(Run(r, actions).published)
    decreases |actions|
  {
    if actions != [] {
      var i :| 0 <= i < |Firsts(r.published)| && Firsts(r.published)[i] != i;
      var r1 := Step(r, actions[0]);
      if r1.published != r.published {
        FirstsAppend(r.published, r.batch[0]);
      }
      assert Firsts(r1.published)[i] != i;
      StaysOutOfOrder(r1, actions[1..]);
    }
  }

  lemma {:induction false} RunInOrder<P>(r: Relay<P>, behind: bool, actions: seq<Action<P>>, k: nat) returns (k1: nat)
    requires InOrder(r, behind, k)
    ensures if Orderly(r, behind, actions) then k1 <= |Run(r, actions).table| && Firsts(Run(r, actions).published) == UpTo(k1)
            else OutOfOrder(Run(r, actions).published)
    decreases |actions|
  {
    k1 := k;
    if actions != [] {
      var a := actions[0];
      if Overtakes(r, behind, a) {
        OvertakenIsOutOfOrder(r, a, k);
        StaysOutOfOrder(Step(r, a), actions[1..]);
      } else {
        var k0 := StepInOrder(r, behind, a, k);
        k1 := RunInOrder(Step(r, a), LeftBehind(r, behind, a), actions[1..], k0);
      }
    }
  }

  /**
   The published sequence with its repeats erased is a prefix of the table in id
   order if and only if no unpublished row was ever sent behind a failed
   unpublished row of its batch. Crashes, failed marks and lost acknowledgements
   do no harm.
   */
  lemma InOrderExactly<P>(actions: seq<Action<P>>)
    ensures Orderly(Empty(), false, actions) <==> exists k: nat :: Firsts(Run(Empty(), actions).published) == UpTo(k)
  {
    assert InOrder(Empty<P>(), false, 0);
    var k1 := RunInOrder(Empty(), false, actions, 0);
    if k: nat :| Firsts(Run(Empty(), actions).published) == UpTo(k) {
      if OutOfOrder(Run(Empty(), actions).published) {
        OutOfOrderIsNoPrefix(Run(Empty(), actions).published, k);
      }
    }
  }

  lemma RunUnfold<P>(r: Relay<P>, a: Action<P>, rest: seq<Action<P>>)
    ensures Run(r, [a] + rest) == Run(Step(r, a), rest)
  {
    assert ([a] + rest)[1..] == rest;
  }

  /** The order can fail: the first row's send fails and the second row of the batch goes out before it. */
  lemma FailedSendOvertakes<P>(first: P, second: P) returns (r: Relay<P>)
    ensures r == Run(Empty(), [Append(first), Append(second), Fetch(2), Advance(SendFailed), Advance(Delivered)])
    ensures r.published == [1] && forall k: nat :: Firsts(r.published) != UpTo(k)
  {
    var r3 := TwoFetched(first, second);
    var r4 := Step(r3, Advance(SendFailed));
    r := Step(r4, Advance(Delivered));
    assert r.published == [1];
    hide Step, Run;
    RunFive(first, second);
    assert Firsts([1]) == [1] by {
      FirstsAppend([], 1);
      assert [] + [1] == [1];
    }
    forall k: nat ensures Firsts(r.published) != UpTo(k) {
      if k > 0 {
        assert UpTo(k)[0] == 0;
      }
    }
  }

  lemma TwoFetched<P>(first: P, second: P) returns (r: Relay<P>)
    ensures r == Step(Step(Step(Empty(), Append(first)), Append(second)), Fetch(2))
    ensures r == Relay([OutboxRow(first, false, 0), OutboxRow(second, false, 0)], [], [0, 1])
  {
    var r2 := Step(Step(Empty(), Append(first)), Append(second));
    assert r2 == Relay([OutboxRow(first, false, 0), OutboxRow(second, false, 0)], [], []);
    assert Unprocessed(r2.table, 2) == [] && Unprocessed(r2.table, 1) == [1] && Unprocessed(r2.table, 0) == [0, 1];
    r := Step(r2, Fetch(2));
  }

  lemma RunFive<P>(first: P, second: P)
    ensures Run(Empty(), [Append(first), Append(second), Fetch(2), Advance(SendFailed), Advance(Delivered)])
            == Step(Step(Step(Step(Step(Empty(), Append(first)), Append(second)), Fetch(2)), Advance(SendFailed)), Advance(Delivered))
  {
    hide Step;
    var r1 := Step(Empty(), Append(first));
    var r2 := Step(r1, Append(second));
    var r3 := Step(r2, Fetch(2));
    var r4 := Step(r3, Advance(SendFailed));
    var t4: seq<Action<P>> := [Advance(Delivered)];
    var t3 := [Advance(SendFailed)] + t4;
    var t2 := [Fetch(2)] + t3;
    var t1 := [Append(second)] + t2;
    RunUnfold(r4, Advance(Delivered), []);
    assert t4 + [] == t4;
    RunUnfold(r3, Advance(SendFailed), t4);
    RunUnfold(r2, Fetch(2), t3);
    RunUnfold(r1, Append(second), t2);
    RunUnfold(Empty(), Append(first), t1);
    assert [Append(first)] + t1 == [Append(first), Append(second), Fetch(2), Advance(SendFailed), Advance(Delivered)];
  }

  /** In particular when every send reaches its topic. */
  lemma {:induction false} SendsThatReachKeepOrder<P>(r: Relay<P>, actions: seq<Action<P>>)
    requires forall i :: 0 <= i < |actions| ==> !(actions[i].Advance? && actions[i].fate.SendFailed?)
    ensures Orderly(r, false, actions)
    decreases |actions|
  {
    if actions != [] {
      SendsThatReachKeepOrder(Step(r, actions[0]), actions[1..]);
    }
  }

  // ------------------------------------------------------------------ draining

  lemma {:induction false} MarkedIsGone<P>(table: Table<P>, id: nat, n: nat)
    requires id < |table| && !table[id].processed
    ensures Unprocessed(Mark(table, id), n) == Without(Unprocessed(table, n), id)
    decreases |table| - n
  {
    if n < |table| {
      MarkedIsGone(table, id, n + 1);
      WithoutCons(n, Unprocessed(table, n + 1), id);
    }
  }

  lemma WithoutCons(x: nat, s: seq<nat>, y: nat)
    ensures Without([x] + s, y) == (if x == y then [] else [x]) + Without(s, y)
    ensures Without([] + s, y) == Without(s, y)
  {
    assert ([x] + s)[1..] == s && [] + s == s;
  }

  /** A sequence without one value. */
  function Without(s: seq<nat>, x: nat): seq<nat> {
    if s == [] then [] else (if s[0] == x then [] else [s[0]]) + Without(s[1..], x)
  }

  lemma {:induction false} WithoutAbsent(s: seq<nat>, x: nat)
    requires x !in s
    ensures Without(s, x) == s
    decreases |s|
  {
    if s != [] {
      WithoutAbsent(s[1..], x);
    }
  }

  lemma WithoutHead(s: seq<nat>)
    requires s != [] && Increasing(s)
    ensures Without(s, s[0]) == s[1..]
  {
    WithoutAbsent(s[1..], s[0]);
  }

  /** Draining a batch of the oldest unprocessed rows without faults leaves the rest. */
  lemma {:induction false} CleanDrain<P>(r: Relay<P>, fate: nat -> Fate, k: nat)
    requires forall i :: fate(i).Delivered?
    requires OldestBatch(r)
    ensures Unprocessed(DrainBatch(r, fate, k).table, 0) == Unprocessed(r.table, 0)[|r.batch|..]
    ensures DrainBatch(r, fate, k).published == r.published + r.batch
    decreases |r.batch|
  {
    if r.batch != [] {
      hide Unprocessed, Next, OldestBatch;
      var r1 := Next(r, fate(k));
      HeadDelivered(r, fate(k));
      CleanDrain(r1, fate, k + 1);
      OneMoreDrained(r.published, r.batch, Unprocessed(r.table, 0));
    } else {
      assert r.published + [] == r.published && Unprocessed(r.table, 0)[0..] == Unprocessed(r.table, 0);
    }
  }

  /** The batch is what a fetch would return. */
  ghost predicate OldestBatch<P>(r: Relay<P>) {
    |r.batch| <= |Unprocessed(r.table, 0)| && r.batch == Unprocessed(r.table, 0)[..|r.batch|]
  }

  lemma OneMoreDrained(published: seq<nat>, batch: seq<nat>, u: seq<nat>)
    requires batch != [] && |batch| <= |u|
    ensures published + [batch[0]] + batch[1..] == published + batch
    ensures u[1..][|batch[1..]|..] == u[|batch|..]
  {
    assert [batch[0]] + batch[1..] == batch;
  }

  lemma HeadDelivered<P>(r: Relay<P>, fate: Fate)
    requires fate.Delivered? && r.batch != [] && OldestBatch(r)
    ensures var r1 := Next(r, fate);
            && Unprocessed(r1.table, 0) == Unprocessed(r.table, 0)[1..] && |r.batch| <= |Unprocessed(r.table, 0)|
            && r1.published == r.published + [r.batch[0]] && r1.batch == r.batch[1..] && OldestBatch(r1)
  {
    var u := Unprocessed(r.table, 0);
    UnprocessedExact(r.table, 0);
    assert u[0] in u && u[0] == r.batch[0];
    MarkedIsGone(r.table, u[0], 0);
    WithoutHead(u);
    assert u[1..][..|r.batch| - 1] == r.batch[1..];
  }

  function Passes<P>(r: Relay<P>, batchSize: nat, fate: nat -> Fate, n: nat): Relay<P>
    decreases n
  {
    if n == 0 then r
    else Passes(DrainBatch(r.(batch := Fetched(r.table, batchSize)), fate, 0), batchSize, fate, n - 1)
  }

  /** One pass without faults publishes the oldest rows in order, a full batch of them if there are that many. */
  lemma PassDrains<P>(r: Relay<P>, batchSize: nat, fate: nat -> Fate)
    requires forall i :: fate(i).Delivered?
    ensures var u := Unprocessed(r.table, 0);
            var r1 := DrainBatch(r.(batch := Fetched(r.table, batchSize)), fate, 0);
            && r1.published == r.published + Take(u, batchSize)
            && Unprocessed(r1.table, 0) == if batchSize <= |u| then u[batchSize..] else []
  {
    hide Unprocessed;
    CleanDrain(r.(batch := Fetched(r.table, batchSize)), fate, 0);
  }

  /** Passes without faults drain any finite backlog. */
  lemma {:induction false} BacklogDrains<P>(r: Relay<P>, batchSize: nat, fate: nat -> Fate, n: nat)
    requires batchSize > 0 && forall i :: fate(i).Delivered?
    requires |Unprocessed(r.table, 0)| <= n * batchSize
    ensures Unprocessed(Passes(r, batchSize, fate, n).table, 0) == []
    decreases n
  {
    hide Unprocessed, DrainBatch;
    BatchesLeft(|Unprocessed(r.table, 0)|, batchSize, n);
    if n > 0 {
      PassDrains(r, batchSize, fate);
      BacklogDrains(DrainBatch(r.(batch := Fetched(r.table, batchSize)), fate, 0), batchSize, fate, n - 1);
    }
  }

  lemma BatchesLeft(backlog: nat, batchSize: nat, n: nat)
    requires backlog <= n * batchSize
    ensures n == 0 ==> backlog == 0
    ensures n > 0 ==> backlog - batchSize <= (n - 1) * batchSize && (n - 1) * batchSize >= 0
  {
    assert (n - 1) * batchSize == n * batchSize - batchSize;
  }
}
