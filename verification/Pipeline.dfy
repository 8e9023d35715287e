/**
 From the outbox to the matcher. One machine holds the exchange, the relay over
 the outbox rows the exchange commits, and the matcher's position on every
 partition of the command topic; requests, relay steps, deliveries, redeliveries
 and restarts interleave freely.
 */
module Pipeline {
  import opened Ledger
  import opened Settlement
  import opened Invariant
  import opened Exchange
  import opened Once
  import opened CommandRows
  import Lifecycle
  import R = OutboxRelay

  /** Commands are keyed by their market, and the key decides the partition. */
  type Partitioning = Symbol -> nat

  /**
   `consumed` is the matcher's position on each partition. The rest is
   bookkeeping: whether the relay left an unpublished row of its batch behind,
   how far each partition has ever been read, and which rows were, in order.
   */
  datatype System = System(exchange: State, relay: R.Relay<Payload>, consumed: map<nat, nat>, behind: bool,
                           high: map<nat, nat>, read: seq<nat>)

  datatype Move =
    | Request(request: Action)                     // a new order or a cancellation
    | RelayMove(step: R.Action<Payload>)           // fetch, publish and mark, or crash
    | Consume(partition: nat)                      // the matcher takes the next record of a partition
    | Rewind(partition: nat, offset: nat)          // its consumer goes back
    | RestartMatcher(offsets: map<nat, nat>)       // its process restarts: books replayed, consumer back

  function At(m: map<nat, nat>, p: nat): nat {
    if p in m then m[p] else 0
  }

  // ------------------------------------------------------------- partitions

  predicate InLane(part: Partitioning, rows: seq<Payload>, id: nat, p: nat) {
    id < |rows| && rows[id].CommandRow? && part(rows[id].command.symbol) == p
  }

  /** The rows among these that hold a command of the partition. */
  function Lane(part: Partitioning, rows: seq<Payload>, ids: seq<nat>, p: nat): seq<nat> {
    if ids == [] then []
    else
      var last := ids[|ids| - 1];
      Lane(part, rows, ids[..|ids| - 1], p) + if InLane(part, rows, last, p) then [last] else []
  }

  function Payloads(table: R.Table<Payload>): seq<Payload> {
    seq(|table|, i requires 0 <= i < |table| => table[i].payload)
  }

  /** What the relay has put on a partition. */
  function LaneOf(part: Partitioning, y: System, p: nat): seq<nat> {
    Lane(part, Payloads(y.relay.table), y.relay.published, p)
  }

  /** Every row the exchange has committed to the outbox is a row of the relay's table. */
  function CatchUp(table: R.Table<Payload>, outbox: seq<Payload>): R.Table<Payload>
    decreases |outbox| - |table|
  {
    if |table| >= |outbox| then table
    else CatchUp(table + [R.OutboxRow(outbox[|table|], false, 0)], outbox)
  }

  function WithExchange(y: System, s: State): System {
    y.(exchange := s, relay := y.relay.(table := CatchUp(y.relay.table, s.db.outbox)))
  }

  /** The exchange's step behind a move: none for the relay and for a rewind. */
  function ExchangeStep(part: Partitioning, y: System, v: Move): seq<Action> {
    match v {
      case Request(a) => if a.Place? || a.AskCancel? then [a] else []
      case RelayMove(_) => []
      case Consume(p) =>
        var lane := LaneOf(part, y, p);
        if At(y.consumed, p) < |lane| then StepOf(Payloads(y.relay.table), lane[At(y.consumed, p)]) else []
      case Rewind(_, _) => []
      case RestartMatcher(_) => [Restart]
    }
  }

  /** The command in row `id`, as the matcher's next step. */
  function StepOf(rows: seq<Payload>, id: nat): seq<Action> {
    if id < |rows| && rows[id].CommandRow? then [Process(rows[id].command)] else []
  }

  /** One record of a partition has been taken: a new one, or one read before. */
  function Taken(part: Partitioning, y: System, p: nat): System {
    var lane, c := LaneOf(part, y, p), At(y.consumed, p);
    if c >= |lane| then y
    else if c == At(y.high, p) then y.(consumed := y.consumed[p := c + 1], high := y.high[p := c + 1], read := y.read + [lane[c]])
    else y.(consumed := y.consumed[p := c + 1])
  }

  function Back(consumed: map<nat, nat>, offsets: map<nat, nat>): map<nat, nat> {
    map p | p in consumed :: if p in offsets && offsets[p] <= consumed[p] then offsets[p] else consumed[p]
  }

  function MoveOnce(part: Partitioning, ms: Markets, y: System, v: Move): System {
    var y1 :=
      match v {
        case Request(_) => y
        case RelayMove(a) => if a.Append? then y else y.(relay := R.Step(y.relay, a), behind := R.LeftBehind(y.relay, y.behind, a))
        case Consume(p) => Taken(part, y, p)
        case Rewind(p, offset) => y.(consumed := Back(y.consumed, map[p := offset]))
        case RestartMatcher(offsets) => y.(consumed := Back(y.consumed, offsets))
      };
    var step := ExchangeStep(part, y, v);
    if step == [] then y1 else WithExchange(y1, Step(ms, y.exchange, step[0]))
  }

  function Moves(part: Partitioning, ms: Markets, y: System, vs: seq<Move>): System {
    if vs == [] then y else MoveOnce(part, ms, Moves(part, ms, y, vs[..|vs| - 1]), vs[|vs| - 1])
  }

  /** What the exchange did, in order. */
  function Trace(part: Partitioning, ms: Markets, y: System, vs: seq<Move>): seq<Action> {
    if vs == [] then []
    else Trace(part, ms, y, vs[..|vs| - 1]) + ExchangeStep(part, Moves(part, ms, y, vs[..|vs| - 1]), vs[|vs| - 1])
  }

  /** The relay never sends an unpublished row behind a failed unpublished row of its batch. */
  predicate OrderlyMoves(part: Partitioning, ms: Markets, y: System, vs: seq<Move>) {
    vs == [] ||
    (var y0 := Moves(part, ms, y, vs[..|vs| - 1]);
     && OrderlyMoves(part, ms, y, vs[..|vs| - 1])
     && (vs[|vs| - 1].RelayMove? ==> !R.Overtakes(y0.relay, y0.behind, vs[|vs| - 1].step)))
  }

  function Start(s: State): System {
    System(s, R.Empty<Payload>(), map[], false, map[], [])
  }

  // -------------------------------------------------------- the exchange's run

  /** The machine's exchange is where its trace leads. */
  lemma MoveLeads(part: Partitioning, ms: Markets, y: System, v: Move)
    ensures MoveOnce(part, ms, y, v).exchange == Run(ms, y.exchange, ExchangeStep(part, y, v))
    ensures |ExchangeStep(part, y, v)| <= 1
  {
    hide Step, R.Step, CatchUp;
    if ExchangeStep(part, y, v) != [] {
      Lifecycle.RunOne(ms, y.exchange, ExchangeStep(part, y, v)[0]);
      assert ExchangeStep(part, y, v) == [ExchangeStep(part, y, v)[0]];
    }
  }

  lemma {:induction false} TraceLeads(part: Partitioning, ms: Markets, y: System, vs: seq<Move>)
    ensures Moves(part, ms, y, vs).exchange == Run(ms, y.exchange, Trace(part, ms, y, vs))
    decreases |vs|
  {
    hide Step, MoveOnce, ExchangeStep;
    if vs != [] {
      var init := vs[..|vs| - 1];
      TraceLeads(part, ms, y, init);
      var y0 := Moves(part, ms, y, init);
      MoveLeads(part, ms, y0, vs[|vs| - 1]);
      Lifecycle.RunAppend(ms, y.exchange, Trace(part, ms, y, init), ExchangeStep(part, y0, vs[|vs| - 1]));
    }
  }

  // -------------------------------------------------------- table and outbox

  /** Row for row the relay's table is the outbox. */
  ghost predicate SameRows(table: R.Table<Payload>, outbox: seq<Payload>) {
    |table| == |outbox| && forall i :: 0 <= i < |table| ==> table[i].payload == outbox[i]
  }

  /** The new rows are appended unprocessed, one by one. */
  lemma {:induction false} CatchUpAppends(r: R.Relay<Payload>, behind: bool, outbox: seq<Payload>, k: nat)
    requires |r.table| <= |outbox| && forall i :: 0 <= i < |r.table| ==> r.table[i].payload == outbox[i]
    requires R.InOrder(r, behind, k)
    ensures SameRows(CatchUp(r.table, outbox), outbox)
    ensures R.InOrder(r.(table := CatchUp(r.table, outbox)), behind, k)
    decreases |outbox| - |r.table|
  {
    hide R.InOrder;
    if |r.table| < |outbox| {
      var a := R.Append(outbox[|r.table|]);
      AppendKeepsOrder(r, behind, outbox[|r.table|], k);
      CatchUpAppends(R.Step(r, a), behind, outbox, k);
    }
  }

  lemma AppendKeepsOrder(r: R.Relay<Payload>, behind: bool, p: Payload, k: nat)
    requires R.InOrder(r, behind, k)
    ensures R.InOrder(R.Step(r, R.Append(p)), behind, k)
  {
    R.StepOk(r, R.Append(p));
  }

  /** What every move keeps: table and outbox agree, and the relay is in order. */
  ghost predicate Tied(y: System, k: nat) {
    SameRows(y.relay.table, y.exchange.db.outbox) && R.InOrder(y.relay, y.behind, k)
  }

  lemma ExchangeTied(ms: Markets, y: System, a: Action, k: nat)
    requires Tied(y, k)
    ensures Tied(WithExchange(y, Step(ms, y.exchange, a)), k)
    ensures y.exchange.db.outbox <= Step(ms, y.exchange, a).db.outbox
  {
    hide Step, R.InOrder;
    StepExtendsOutbox(ms, y.exchange, a);
    CatchUpAppends(y.relay, y.behind, Step(ms, y.exchange, a).db.outbox, k);
  }

  lemma RelayTied(y: System, a: R.Action<Payload>, k: nat) returns (k1: nat)
    requires Tied(y, k) && !a.Append? && !R.Overtakes(y.relay, y.behind, a)
    ensures Tied(y.(relay := R.Step(y.relay, a), behind := R.LeftBehind(y.relay, y.behind, a)), k1)
    ensures y.relay.published <= R.Step(y.relay, a).published
  {
    k1 := R.StepInOrder(y.relay, y.behind, a, k);
    hide R.InOrder;
  }

  lemma MoveTied(part: Partitioning, ms: Markets, y: System, v: Move, k: nat) returns (k1: nat)
    requires Tied(y, k) && (v.RelayMove? ==> !R.Overtakes(y.relay, y.behind, v.step))
    ensures Tied(MoveOnce(part, ms, y, v), k1)
    ensures y.exchange.db.outbox <= MoveOnce(part, ms, y, v).exchange.db.outbox && y.relay.published <= MoveOnce(part, ms, y, v).relay.published
  {
    hide Step, R.InOrder, R.Step, CatchUp, SameRows, Lane, Payloads;
    k1 := k;
    if ExchangeStep(part, y, v) != [] {
      ExchangeTied(ms, y, ExchangeStep(part, y, v)[0], k);
    } else if v.RelayMove? && !v.step.Append? {
      k1 := RelayTied(y, v.step, k);
    }
  }

  lemma {:induction false} MovesTied(part: Partitioning, ms: Markets, s: State, vs: seq<Move>) returns (k: nat)
    requires s.db.outbox == [] && OrderlyMoves(part, ms, Start(s), vs)
    ensures Tied(Moves(part, ms, Start(s), vs), k)
    decreases |vs|
  {
    hide MoveOnce, R.Overtakes;
    if vs == [] {
      k := 0;
      assert R.InOrder(R.Empty<Payload>(), false, 0);
    } else {
      var k0 := MovesTied(part, ms, s, vs[..|vs| - 1]);
      k := MoveTied(part, ms, Moves(part, ms, Start(s), vs[..|vs| - 1]), vs[|vs| - 1], k0);
    }
  }

  // ------------------------------------------------------- commands and rows

  /** The commands of these rows, in this order. */
  function CommandsIn(outbox: seq<Payload>, ids: seq<nat>): seq<Action> {
    if ids == [] then [] else CommandsIn(outbox, ids[..|ids| - 1]) + StepOf(outbox, ids[|ids| - 1])
  }

  /** The processed commands of a run, in order. */
  function ProcessesOf(actions: seq<Action>): seq<Action> {
    if actions == [] then []
    else ProcessesOf(actions[..|actions| - 1]) + if actions[|actions| - 1].Process? then [actions[|actions| - 1]] else []
  }

  lemma ProcessesOfLast(actions: seq<Action>, a: Action)
    ensures ProcessesOf(actions + [a]) == ProcessesOf(actions) + if a.Process? then [a] else []
  {
    assert (actions + [a])[..|actions|] == actions;
  }

  lemma CommandsInLast(outbox: seq<Payload>, ids: seq<nat>, id: nat)
    ensures CommandsIn(outbox, ids + [id]) == CommandsIn(outbox, ids) + StepOf(outbox, id)
  {
    assert (ids + [id])[..|ids|] == ids;
  }

  lemma ProcessedLast(actions: seq<Action>, a: Action)
    ensures Processed(actions + [a]) == Processed(actions) + if a.Process? then {a.command} else {}
  {
    var all := actions + [a];
    assert all[|actions|] == a && forall i :: 0 <= i < |actions| ==> all[i] == actions[i];
  }

  /** A step at the end of a run is kept unless its command was processed before. */
  lemma {:induction false} FirstsOnlyLast(actions: seq<Action>, a: Action, seen: set<Command>)
    ensures FirstsOnly(actions + [a], seen)
            == FirstsOnly(actions, seen) + if a.Process? && a.command in seen + Processed(actions) then [] else [a]
    decreases |actions|
  {
    if actions == [] {
      assert [a][1..] == [] && [] + [a] == [a];
    } else {
      assert (actions + [a])[0] == actions[0] && (actions + [a])[1..] == actions[1..] + [a];
      ProcessedUnfold(actions);
      FirstsOnlyLast(actions[1..], a, if actions[0].Process? then seen + {actions[0].command} else seen);
      if actions[0].Process? && actions[0].command in seen {
        assert seen + {actions[0].command} == seen;
      }
    }
  }

  /** The commands of some rows, as a set. */
  function CommandSet(outbox: seq<Payload>, ids: seq<nat>): set<Command> {
    set i | i in ids && i < |outbox| && outbox[i].CommandRow? :: outbox[i].command
  }

  lemma CommandSetLast(outbox: seq<Payload>, ids: seq<nat>, id: nat)
    requires CommandsDistinct(outbox) && id < |outbox| && outbox[id].CommandRow?
    ensures outbox[id].command in CommandSet(outbox, ids) <==> id in ids
    ensures CommandSet(outbox, ids + [id]) == CommandSet(outbox, ids) + {outbox[id].command}
  {
    if outbox[id].command in CommandSet(outbox, ids) {
      var i :| i in ids && i < |outbox| && outbox[i].CommandRow? && outbox[i].command == outbox[id].command;
      assert outbox[i] == outbox[id];
    }
  }

  lemma {:induction false} CommandsInGrows(before: seq<Payload>, after: seq<Payload>, ids: seq<nat>)
    requires before <= after && forall i :: i in ids ==> i < |before|
    ensures CommandsIn(before, ids) == CommandsIn(after, ids) && CommandSet(before, ids) == CommandSet(after, ids)
    decreases |ids|
  {
    if ids != [] {
      var init, last := ids[..|ids| - 1], ids[|ids| - 1];
      assert last in ids && forall i :: i in init ==> i in ids;
      CommandsInGrows(before, after, init);
      assert before[last] == after[last];
    }
    forall c ensures c in CommandSet(before, ids) <==> c in CommandSet(after, ids) {
      if c in CommandSet(after, ids) {
        var i :| i in ids && i < |after| && after[i].CommandRow? && after[i].command == c;
        assert before[i] == after[i];
      }
    }
  }

  /** What has been processed is what was read so far, and what was kept of it are the first appearances. */
  ghost predicate Accounted(trace: seq<Action>, outbox: seq<Payload>, read: seq<nat>) {
    && Processed(trace) == CommandSet(outbox, read)
    && ProcessesOf(FirstsOnly(trace, {})) == CommandsIn(outbox, R.Firsts(read))
  }

  /** A step that is not a delivery adds nothing to the account. */
  lemma OtherStepAccounted(trace: seq<Action>, a: Action, outbox: seq<Payload>, read: seq<nat>)
    requires Accounted(trace, outbox, read) && !a.Process?
    ensures Accounted(trace + [a], outbox, read)
  {
    hide Processed, CommandSet, FirstsOnly, R.Firsts, CommandsIn, ProcessesOf;
    ProcessedLast(trace, a);
    FirstsOnlyLast(trace, a, {});
    ProcessesOfLast(FirstsOnly(trace, {}), a);
  }

  /** Reading row `id` again changes nothing that is kept. */
  lemma RepeatAccounted(trace: seq<Action>, outbox: seq<Payload>, read: seq<nat>, id: nat)
    requires Accounted(trace, outbox, read) && CommandsDistinct(outbox) && id in read
    ensures Accounted(trace + StepOf(outbox, id), outbox, read)
  {
    if StepOf(outbox, id) == [] {
      assert trace + [] == trace;
    } else {
      var a := Process(outbox[id].command);
      CommandSetLast(outbox, read, id);
      hide Processed, CommandSet, FirstsOnly, R.Firsts, CommandsIn, ProcessesOf;
      ProcessedLast(trace, a);
      FirstsOnlyLast(trace, a, {});
      assert {} + Processed(trace) == Processed(trace);
      assert CommandSet(outbox, read) + {outbox[id].command} == CommandSet(outbox, read);
      assert FirstsOnly(trace, {}) + [] == FirstsOnly(trace, {});
    }
  }

  /** Reading a row for the first time. */
  lemma NewAccounted(trace: seq<Action>, outbox: seq<Payload>, read: seq<nat>, id: nat)
    requires Accounted(trace, outbox, read) && CommandsDistinct(outbox) && id !in read
    ensures Accounted(trace + StepOf(outbox, id), outbox, read + [id])
  {
    R.FirstsAppend(read, id);
    CommandsInLast(outbox, R.Firsts(read), id);
    if StepOf(outbox, id) == [] {
      NoCommandNoChange(outbox, read, id);
      assert trace + [] == trace;
    } else {
      var a := Process(outbox[id].command);
      CommandSetLast(outbox, read, id);
      hide Processed, CommandSet, FirstsOnly, R.Firsts, CommandsIn, ProcessesOf;
      ProcessedLast(trace, a);
      FirstsOnlyLast(trace, a, {});
      ProcessesOfLast(FirstsOnly(trace, {}), a);
      assert {} + Processed(trace) == Processed(trace);
    }
  }

  lemma NoCommandNoChange(outbox: seq<Payload>, read: seq<nat>, id: nat)
    requires StepOf(outbox, id) == []
    ensures CommandSet(outbox, read + [id]) == CommandSet(outbox, read)
    ensures CommandsIn(outbox, R.Firsts(read)) + StepOf(outbox, id) == CommandsIn(outbox, R.Firsts(read))
  {
  }

  lemma AgainNoChange(outbox: seq<Payload>, read: seq<nat>, id: nat)
    requires id in read
    ensures CommandSet(outbox, read + [id]) == CommandSet(outbox, read) && R.Firsts(read + [id]) == R.Firsts(read)
  {
    R.FirstsAppend(read, id);
  }

  /** Reading the next record. */
  lemma NextAccounted(trace: seq<Action>, outbox: seq<Payload>, read: seq<nat>, id: nat)
    requires Accounted(trace, outbox, read) && CommandsDistinct(outbox)
    ensures Accounted(trace + StepOf(outbox, id), outbox, read + [id])
  {
    if id in read {
      RepeatAccounted(trace, outbox, read, id);
      AgainNoChange(outbox, read, id);
    } else {
      NewAccounted(trace, outbox, read, id);
    }
  }

  lemma AccountedGrows(trace: seq<Action>, before: seq<Payload>, after: seq<Payload>, read: seq<nat>)
    requires Accounted(trace, before, read) && before <= after && forall i :: i in read ==> i < |before|
    ensures Accounted(trace, after, read)
  {
    R.FirstsMembers(read);
    CommandsInGrows(before, after, read);
    CommandsInGrows(before, after, R.Firsts(read));
  }

  // ---------------------------------------------------------------- the whole

  /** The account of a machine state: its trace against the records read so far, and these partition by partition. */
  ghost predicate InAccount(part: Partitioning, y: System, trace: seq<Action>) {
    Accounted(trace, y.exchange.db.outbox, y.read) && ReadInLanes(part, y.exchange.db.outbox, y.relay.published, y)
  }

  ghost predicate ReadInLanes(part: Partitioning, rows: seq<Payload>, published: seq<nat>, y: System) {
    && (forall i :: i in y.read ==> i in published)
    && (forall p :: At(y.consumed, p) <= At(y.high, p) <= |Lane(part, rows, published, p)|)
    && (forall p :: Lane(part, rows, y.read, p) == Lane(part, rows, published, p)[..At(y.high, p)])
  }

  lemma ReadRowsExist(y: System, k: nat)
    requires Tied(y, k)
    ensures Payloads(y.relay.table) == y.exchange.db.outbox
    ensures forall i :: i in y.relay.published ==> i < |y.exchange.db.outbox|
  {
  }

  // ------------------------------------------------------------------- lanes

  lemma LaneLast(part: Partitioning, rows: seq<Payload>, ids: seq<nat>, id: nat, p: nat)
    ensures Lane(part, rows, ids + [id], p) == Lane(part, rows, ids, p) + if InLane(part, rows, id, p) then [id] else []
  {
    assert (ids + [id])[..|ids|] == ids;
  }

  lemma {:induction false} LaneMembers(part: Partitioning, rows: seq<Payload>, ids: seq<nat>, p: nat)
    ensures forall i :: i in Lane(part, rows, ids, p) <==> i in ids && InLane(part, rows, i, p)
    decreases |ids|
  {
    if ids != [] {
      LaneMembers(part, rows, ids[..|ids| - 1], p);
      assert ids == ids[..|ids| - 1] + [ids[|ids| - 1]];
    }
  }

  lemma {:induction false} LanePrefix(part: Partitioning, rows: seq<Payload>, a: seq<nat>, b: seq<nat>, p: nat)
    requires a <= b
    ensures Lane(part, rows, a, p) <= Lane(part, rows, b, p)
    decreases |b|
  {
    if a != b {
      assert a <= b[..|b| - 1];
      LanePrefix(part, rows, a, b[..|b| - 1], p);
    }
  }

  lemma {:induction false} LaneGrows(part: Partitioning, before: seq<Payload>, after: seq<Payload>, ids: seq<nat>, p: nat)
    requires before <= after && forall i :: i in ids ==> i < |before|
    ensures Lane(part, before, ids, p) == Lane(part, after, ids, p)
    decreases |ids|
  {
    if ids != [] {
      var init, last := ids[..|ids| - 1], ids[|ids| - 1];
      assert last in ids && forall i :: i in init ==> i in ids;
      LaneGrows(part, before, after, init, p);
      assert before[last] == after[last];
    }
  }

  /** More rows, more published: what was read stays where it was. */
  lemma ReadStaysInLanes(part: Partitioning, before: seq<Payload>, after: seq<Payload>, published: seq<nat>, more: seq<nat>, y: System, y1: System)
    requires ReadInLanes(part, before, published, y) && before <= after && published <= more
    requires forall i :: i in published ==> i < |before|
    requires y1.read == y.read && y1.high == y.high && forall p :: At(y1.consumed, p) <= At(y.consumed, p)
    ensures ReadInLanes(part, after, more, y1)
  {
    hide Lane;
    assert forall i :: i in y.read ==> i < |before|;
    assert forall i :: i in published ==> i in more;
    forall p ensures At(y1.consumed, p) <= At(y1.high, p) <= |Lane(part, after, more, p)|
                     && Lane(part, after, y.read, p) == Lane(part, after, more, p)[..At(y.high, p)]
    {
      LaneGrows(part, before, after, y.read, p);
      LaneGrows(part, before, after, published, p);
      LanePrefix(part, after, published, more, p);
    }
  }

  /** Taking the next record of a partition, new or again. */
  lemma TakenInLanes(part: Partitioning, rows: seq<Payload>, y: System, p: nat)
    requires ReadInLanes(part, rows, y.relay.published, y) && Payloads(y.relay.table) == rows
    ensures ReadInLanes(part, rows, y.relay.published, Taken(part, y, p))
  {
    hide Lane, InLane, Payloads;
    var lane, c := LaneOf(part, y, p), At(y.consumed, p);
    var y1 := Taken(part, y, p);
    if c < |lane| {
      var id := lane[c];
      assert id in lane;
      LaneMembers(part, rows, y.relay.published, p);
      forall q ensures At(y1.consumed, q) <= At(y1.high, q) <= |Lane(part, rows, y.relay.published, q)|
                       && Lane(part, rows, y1.read, q) == Lane(part, rows, y.relay.published, q)[..At(y1.high, q)]
      {
        LaneLast(part, rows, y.read, id, q);
        OneLane(part, rows, id, p, q);
        if q == p && c == At(y.high, p) {
          assert lane[..c + 1] == lane[..c] + [id];
        }
      }
    }
  }

  lemma OneLane(part: Partitioning, rows: seq<Payload>, id: nat, p: nat, q: nat)
    requires InLane(part, rows, id, p)
    ensures InLane(part, rows, id, q) <==> q == p
  {
  }

  /** The record at a position below the furthest one has been read before. */
  lemma ReadBefore(part: Partitioning, rows: seq<Payload>, y: System, p: nat)
    requires ReadInLanes(part, rows, y.relay.published, y) && Payloads(y.relay.table) == rows
    requires At(y.consumed, p) < At(y.high, p)
    ensures LaneOf(part, y, p)[At(y.consumed, p)] in y.read
  {
    hide Lane;
    LaneMembers(part, rows, y.read, p);
    assert Lane(part, rows, y.read, p)[At(y.consumed, p)] in Lane(part, rows, y.read, p);
  }

  /** A step that reads nothing. */
  lemma UnreadAccounted(trace: seq<Action>, step: seq<Action>, before: seq<Payload>, after: seq<Payload>, read: seq<nat>)
    requires Accounted(trace, before, read) && before <= after && forall i :: i in read ==> i < |before|
    requires step == [] || (|step| == 1 && !step[0].Process?)
    ensures Accounted(trace + step, after, read)
  {
    hide Accounted;
    if step == [] {
      assert trace + step == trace;
    } else {
      OtherStepAccounted(trace, step[0], before, read);
      assert step == [step[0]];
    }
    AccountedGrows(trace + step, before, after, read);
  }

  /** Taking a record is accounted for. */
  lemma TakenAccounted(part: Partitioning, rows: seq<Payload>, y: System, p: nat, trace: seq<Action>)
    requires ReadInLanes(part, rows, y.relay.published, y) && Payloads(y.relay.table) == rows
    requires Accounted(trace, rows, y.read) && CommandsDistinct(rows) && At(y.consumed, p) < |LaneOf(part, y, p)|
    ensures Accounted(trace + StepOf(rows, LaneOf(part, y, p)[At(y.consumed, p)]), rows, Taken(part, y, p).read)
  {
    hide Accounted, CommandsDistinct, StepOf, Lane, Payloads;
    var id := LaneOf(part, y, p)[At(y.consumed, p)];
    if At(y.consumed, p) == At(y.high, p) {
      NextAccounted(trace, rows, y.read, id);
    } else {
      ReadBefore(part, rows, y, p);
      RepeatAccounted(trace, rows, y.read, id);
    }
  }

  /** What a move without a record does to the machine. */
  lemma MoveReadsNothing(part: Partitioning, ms: Markets, y: System, v: Move)
    requires !(v.Consume? && At(y.consumed, v.partition) < |LaneOf(part, y, v.partition)|)
    ensures var y1 := MoveOnce(part, ms, y, v);
            var step := ExchangeStep(part, y, v);
            && y1.read == y.read && y1.high == y.high && (forall p :: At(y1.consumed, p) <= At(y.consumed, p))
            && (step == [] || (|step| == 1 && !step[0].Process?))
  {
    hide Step, CatchUp, R.Step, Lane, Payloads;
  }

  lemma MoveReadsOne(part: Partitioning, ms: Markets, y: System, v: Move)
    requires v.Consume? && At(y.consumed, v.partition) < |LaneOf(part, y, v.partition)|
    ensures var y1, y2 := MoveOnce(part, ms, y, v), Taken(part, y, v.partition);
            && y1.read == y2.read && y1.high == y2.high && y1.consumed == y2.consumed && y1.relay.published == y.relay.published
            && ExchangeStep(part, y, v) == StepOf(Payloads(y.relay.table), LaneOf(part, y, v.partition)[At(y.consumed, v.partition)])
  {
    hide Step, CatchUp, Lane, Payloads;
  }

  lemma MoveAccounted(part: Partitioning, ms: Markets, y: System, v: Move, trace: seq<Action>, k: nat)
    requires Tied(y, k) && InAccount(part, y, trace) && (v.RelayMove? ==> !R.Overtakes(y.relay, y.behind, v.step))
    requires CommandsDistinct(MoveOnce(part, ms, y, v).exchange.db.outbox)
    ensures InAccount(part, MoveOnce(part, ms, y, v), trace + ExchangeStep(part, y, v))
  {
    hide MoveOnce, ExchangeStep, Accounted, R.InOrder, SameRows, CommandsDistinct, R.Overtakes, StepOf, Lane, Payloads, Taken, ReadInLanes, LaneOf;
    var k1 := MoveTied(part, ms, y, v, k);
    ReadRowsExist(y, k);
    var y1 := MoveOnce(part, ms, y, v);
    var before, after := y.exchange.db.outbox, y1.exchange.db.outbox;
    DistinctBefore(before, after);
    ReadPublished(part, before, y.relay.published, y);
    if v.Consume? && At(y.consumed, v.partition) < |LaneOf(part, y, v.partition)| {
      var y2 := Taken(part, y, v.partition);
      MoveReadsOne(part, ms, y, v);
      TakenInLanes(part, before, y, v.partition);
      TakenAccounted(part, before, y, v.partition, trace);
      ReadPublished(part, before, y.relay.published, y2);
      AccountedGrows(trace + ExchangeStep(part, y, v), before, after, y2.read);
      ReadStaysInLanes(part, before, after, y.relay.published, y1.relay.published, y2, y1);
    } else {
      MoveReadsNothing(part, ms, y, v);
      UnreadAccounted(trace, ExchangeStep(part, y, v), before, after, y.read);
      ReadStaysInLanes(part, before, after, y.relay.published, y1.relay.published, y, y1);
    }
  }

  lemma ReadPublished(part: Partitioning, rows: seq<Payload>, published: seq<nat>, y: System)
    requires ReadInLanes(part, rows, published, y)
    ensures forall i :: i in y.read ==> i in published
  {
  }

  lemma DistinctBefore(before: seq<Payload>, after: seq<Payload>)
    requires before <= after && CommandsDistinct(after)
    ensures CommandsDistinct(before)
  {
  }

  lemma {:induction false} MovesAccounted(part: Partitioning, ms: Markets, s: State, vs: seq<Move>)
    requires s.db.outbox == [] && OrderlyMoves(part, ms, Start(s), vs)
    requires CommandsDistinct(Moves(part, ms, Start(s), vs).exchange.db.outbox)
    ensures InAccount(part, Moves(part, ms, Start(s), vs), Trace(part, ms, Start(s), vs))
    decreases |vs|
  {
    hide MoveOnce, R.Overtakes, CommandsDistinct, ExchangeStep;
    if vs == [] {
      assert Processed([]) == {} && CommandSet([], []) == {};
      assert forall p :: Lane(part, [], [], p) == [];
    } else {
      var init, v := vs[..|vs| - 1], vs[|vs| - 1];
      var k := MovesTied(part, ms, s, init);
      var y := Moves(part, ms, Start(s), init);
      var k1 := MoveTied(part, ms, y, v, k);
      DistinctBefore(y.exchange.db.outbox, MoveOnce(part, ms, y, v).exchange.db.outbox);
      MovesAccounted(part, ms, s, init);
      MoveAccounted(part, ms, y, v, Trace(part, ms, Start(s), init), k);
    }
  }

  lemma {:induction false} FirstsOfPrefix(p: seq<nat>, n: nat)
    requires n <= |p|
    ensures R.Firsts(p[..n]) <= R.Firsts(p)
    decreases |p|
  {
    if n < |p| {
      assert p[..|p| - 1][..n] == p[..n];
      FirstsOfPrefix(p[..|p| - 1], n);
    } else {
      assert p[..n] == p;
    }
  }

  // ------------------------------------------------------------ commit order

  /** The commands of one partition, in order. */
  function OfPartition(part: Partitioning, p: nat, actions: seq<Action>): seq<Action> {
    if actions == [] then []
    else
      var last := actions[|actions| - 1];
      OfPartition(part, p, actions[..|actions| - 1]) + if last.Process? && part(last.command.symbol) == p then [last] else []
  }

  /** The commands of one market, in order. */
  function OfMarket(symbol: Symbol, actions: seq<Action>): seq<Action> {
    if actions == [] then []
    else
      var last := actions[|actions| - 1];
      OfMarket(symbol, actions[..|actions| - 1]) + if last.Process? && last.command.symbol == symbol then [last] else []
  }

  /** The partition's commands are those of its first rows in the outbox, each once, in commit order. */
  ghost predicate PartitionInOrder(part: Partitioning, outbox: seq<Payload>, kept: seq<Action>, p: nat) {
    exists k :: 0 <= k <= |outbox| && OfPartition(part, p, kept) == OfPartition(part, p, CommandsIn(outbox, R.UpTo(k)))
  }

  ghost predicate MarketInOrder(outbox: seq<Payload>, kept: seq<Action>, symbol: Symbol) {
    exists k :: 0 <= k <= |outbox| && OfMarket(symbol, kept) == OfMarket(symbol, CommandsIn(outbox, R.UpTo(k)))
  }

  lemma OfPartitionLast(part: Partitioning, p: nat, actions: seq<Action>, a: Action)
    ensures OfPartition(part, p, actions + [a])
            == OfPartition(part, p, actions) + if a.Process? && part(a.command.symbol) == p then [a] else []
  {
    assert (actions + [a])[..|actions|] == actions;
  }

  lemma {:induction false} CommandsOfLane(part: Partitioning, rows: seq<Payload>, ids: seq<nat>, p: nat)
    ensures OfPartition(part, p, CommandsIn(rows, ids)) == CommandsIn(rows, Lane(part, rows, ids, p))
    decreases |ids|
  {
    if ids != [] {
      var init, last := ids[..|ids| - 1], ids[|ids| - 1];
      CommandsOfLane(part, rows, init, p);
      if StepOf(rows, last) == [] {
        assert CommandsIn(rows, init) + [] == CommandsIn(rows, init);
        assert Lane(part, rows, init, p) + [] == Lane(part, rows, init, p);
      } else {
        OfPartitionLast(part, p, CommandsIn(rows, init), Process(rows[last].command));
        if InLane(part, rows, last, p) {
          CommandsInLast(rows, Lane(part, rows, init, p), last);
        } else {
          assert Lane(part, rows, init, p) + [] == Lane(part, rows, init, p);
        }
      }
    }
  }

  lemma {:induction false} FirstsOfLane(part: Partitioning, rows: seq<Payload>, ids: seq<nat>, p: nat)
    ensures R.Firsts(Lane(part, rows, ids, p)) == Lane(part, rows, R.Firsts(ids), p)
    decreases |ids|
  {
    if ids != [] {
      var init, last := ids[..|ids| - 1], ids[|ids| - 1];
      FirstsOfLane(part, rows, init, p);
      LaneMembers(part, rows, init, p);
      R.FirstsAppend(Lane(part, rows, init, p), last);
      LaneLast(part, rows, R.Firsts(init), last, p);
      assert Lane(part, rows, init, p) + [] == Lane(part, rows, init, p);
    }
  }

  /** A prefix of a partition is the partition of a prefix. */
  lemma {:induction false} PrefixOfLane(part: Partitioning, rows: seq<Payload>, n: nat, pre: seq<nat>, p: nat) returns (k: nat)
    requires pre <= Lane(part, rows, R.UpTo(n), p)
    ensures k <= n && pre == Lane(part, rows, R.UpTo(k), p)
    decreases n
  {
    if pre == Lane(part, rows, R.UpTo(n), p) {
      return n;
    }
    assert R.UpTo(0) == [];
    assert R.UpTo(n) == R.UpTo(n - 1) + [n - 1];
    LaneLast(part, rows, R.UpTo(n - 1), n - 1, p);
    k := PrefixOfLane(part, rows, n - 1, pre, p);
  }

  lemma {:induction false} MarketOfPartition(part: Partitioning, symbol: Symbol, actions: seq<Action>)
    ensures OfMarket(symbol, OfPartition(part, part(symbol), actions)) == OfMarket(symbol, actions)
    decreases |actions|
  {
    if actions != [] {
      var init, last := actions[..|actions| - 1], actions[|actions| - 1];
      MarketOfPartition(part, symbol, init);
      var kept := OfPartition(part, part(symbol), init);
      assert (kept + [last])[..|kept|] == kept && kept + [] == kept;
    }
  }

  lemma MarketByPartition(part: Partitioning, outbox: seq<Payload>, kept: seq<Action>, symbol: Symbol)
    requires PartitionInOrder(part, outbox, kept, part(symbol))
    ensures MarketInOrder(outbox, kept, symbol)
  {
    var p := part(symbol);
    var k :| 0 <= k <= |outbox| && OfPartition(part, p, kept) == OfPartition(part, p, CommandsIn(outbox, R.UpTo(k)));
    MarketOfPartition(part, symbol, kept);
    MarketOfPartition(part, symbol, CommandsIn(outbox, R.UpTo(k)));
  }

  /** What was read of a partition, without repeats, are its first rows in the outbox. */
  lemma ReadInOrder(part: Partitioning, rows: seq<Payload>, y: System, n: nat, p: nat)
    requires ReadInLanes(part, rows, y.relay.published, y) && R.Firsts(y.relay.published) == R.UpTo(n) && n <= |rows|
    ensures PartitionInOrder(part, rows, CommandsIn(rows, R.Firsts(y.read)), p)
  {
    hide Lane, R.Firsts, CommandsIn, OfPartition;
    var lane, h := Lane(part, rows, y.relay.published, p), At(y.high, p);
    FirstsOfLane(part, rows, y.read, p);
    FirstsOfLane(part, rows, y.relay.published, p);
    FirstsOfPrefix(lane, h);
    var k := PrefixOfLane(part, rows, n, R.Firsts(lane[..h]), p);
    CommandsOfLane(part, rows, R.Firsts(y.read), p);
    CommandsOfLane(part, rows, R.UpTo(k), p);
  }

  predicate Cancels(v: Move) {
    v.Request? && v.request.AskCancel?
  }

  /** No two cancellations are requested with the same command id. */
  predicate FreshIds(vs: seq<Move>) {
    forall i, j :: 0 <= i < j < |vs| && Cancels(vs[i]) && Cancels(vs[j]) ==> vs[i].request.commandId != vs[j].request.commandId
  }

  function CancelIdOf(v: Move): set<CommandId> {
    if Cancels(v) then {v.request.commandId} else {}
  }

  function CancelIds(vs: seq<Move>): set<CommandId> {
    set i | 0 <= i < |vs| && Cancels(vs[i]) :: vs[i].request.commandId
  }

  lemma MoveDistinct(part: Partitioning, ms: Markets, y: System, v: Move, ids: set<CommandId>)
    requires Inv(ms, y.exchange) && CommandsDistinct(y.exchange.db.outbox) && CancelsAmong(y.exchange.db.outbox, ids)
    requires Cancels(v) ==> v.request.commandId !in ids
    ensures var s1 := MoveOnce(part, ms, y, v).exchange;
            && Inv(ms, s1) && CommandsDistinct(s1.db.outbox)
            && CancelsAmong(s1.db.outbox, ids + CancelIdOf(v))
  {
    hide Inv, CommandsDistinct, CancelsAmong, Step, CatchUp, R.Step;
    MoveLeads(part, ms, y, v);
    if ExchangeStep(part, y, v) == [] {
      assert Run(ms, y.exchange, []) == y.exchange;
      MoreCancels(y.exchange.db.outbox, ids, ids + CancelIdOf(v));
    } else {
      var a := ExchangeStep(part, y, v)[0];
      assert ExchangeStep(part, y, v) == [a];
      Lifecycle.RunOne(ms, y.exchange, a);
      StepKeepsAll(ms, y.exchange, a);
      StepDistinct(ms, y.exchange, a, ids);
    }
  }

  lemma MoreCancels(outbox: seq<Payload>, ids: set<CommandId>, more: set<CommandId>)
    requires CancelsAmong(outbox, ids) && ids <= more
    ensures CancelsAmong(outbox, more)
  {
  }

  /** With fresh ids no two rows of the outbox hold the same command. */
  lemma {:induction false} MovesDistinct(part: Partitioning, ms: Markets, s: State, vs: seq<Move>)
    requires Initial(ms, s) && FreshIds(vs)
    ensures var r := Moves(part, ms, Start(s), vs).exchange;
            Inv(ms, r) && CommandsDistinct(r.db.outbox) && CancelsAmong(r.db.outbox, CancelIds(vs))
    decreases |vs|
  {
    hide MoveOnce, Inv, CommandsDistinct;
    if vs == [] {
      InitialInv(ms, s);
      assert CommandsDistinct([]) by { NoRowsDistinct(); }
    } else {
      var init, v := vs[..|vs| - 1], vs[|vs| - 1];
      MovesDistinct(part, ms, s, init);
      MoveDistinct(part, ms, Moves(part, ms, Start(s), init), v, CancelIds(init));
      assert CancelIds(vs) == CancelIds(init) + CancelIdOf(v) by {
        assert forall i :: 0 <= i < |init| ==> vs[i] == init[i];
      }
    }
  }

  lemma NoRowsDistinct()
    ensures CommandsDistinct([])
  {
  }

  /**
   Effectively once, end to end, with fresh command ids on cancellations. However
   requests, the relay's passes, crashes and repeats, deliveries from the
   partitions, redeliveries and the matcher's restarts interleave, in a run whose
   settlements commit the exchange ends where its trace leads with every repeated
   command erased; and of every partition, and so of every market, the commands
   kept are those of its first rows in the outbox, each once, in commit order.
   */
  lemma RelayedEffectivelyOnce(part: Partitioning, ms: Markets, s: State, vs: seq<Move>)
    requires Initial(ms, s) && OrderlyMoves(part, ms, Start(s), vs)
    requires Committing(ms, s, Trace(part, ms, Start(s), vs))
    requires FreshIds(vs)
    ensures var y := Moves(part, ms, Start(s), vs);
            var kept := FirstsOnly(Trace(part, ms, Start(s), vs), {});
            && SameRows(y.relay.table, y.exchange.db.outbox)
            && y.exchange == Run(ms, s, kept)
            && (forall p :: PartitionInOrder(part, y.exchange.db.outbox, ProcessesOf(kept), p))
            && forall symbol :: MarketInOrder(y.exchange.db.outbox, ProcessesOf(kept), symbol)
  {
    hide Run, Committing, FreshIds, FirstsOnly, Trace, Moves, OrderlyMoves, CommandsDistinct, ProcessesOf, CommandsIn, R.Firsts,
         PartitionInOrder, MarketInOrder, ReadInLanes;
    var y := Moves(part, ms, Start(s), vs);
    TraceLeads(part, ms, Start(s), vs);
    EffectivelyOnce(ms, s, Trace(part, ms, Start(s), vs));
    MovesDistinct(part, ms, s, vs);
    var n := MovesTied(part, ms, s, vs);
    MovesAccounted(part, ms, s, vs);
    var kept := ProcessesOf(FirstsOnly(Trace(part, ms, Start(s), vs), {}));
    forall p ensures PartitionInOrder(part, y.exchange.db.outbox, kept, p) {
      ReadInOrder(part, y.exchange.db.outbox, y, n, p);
    }
    forall symbol ensures MarketInOrder(y.exchange.db.outbox, kept, symbol) {
      MarketByPartition(part, y.exchange.db.outbox, kept, symbol);
    }
  }
}
