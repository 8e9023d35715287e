/**
 The delivery protocol as a state machine: main topics, the 30-second retry
 tier, the dead-letter topic with its mirror table, and the admin replay.
 Topics are append-only logs; a consumer has a position and a committed offset,
 and a restart takes the position back to the committed offset.
 */
module Delivery {
  import opened Wrappers
  import opened Decimals
  import opened RetryPolicy

  datatype Tp = Tp(topic: string, partition: nat)

  datatype Lane = Lane(log: seq<Msg>, pos: nat, committed: nat) {
    function Put(m: Msg): Lane {
      this.(log := log + [m])
    }

    function Advance(): Lane {
      this.(pos := pos + 1)
    }

    function Rewind(): Lane {
      this.(pos := committed)
    }

    predicate Pending() {
      pos < |log|
    }
  }

  const EMPTY_LANE := Lane([], 0, 0)

  datatype Resolution = Replayed | Dismissed

  /** A row of the dead-letter table; its id is its position. */
  datatype Row = Row(originalTopic: string, originalPartition: nat, originalOffset: string, payload: string,
                     headers: map<string, string>, worker: string, lastError: string, attempt: nat,
                     replayedFrom: Option<nat>, resolution: Option<Resolution>)

  /** An admin request between its database calls: it has read an unresolved row, or has sent it and not yet marked it. */
  datatype Request = ReplayRead(id: nat) | ReplaySent(id: nat) | DismissRead(id: nat)

  /** What a message was when it was first put on its topic. */
  datatype Origin = Origin(topic: string, key: Option<string>, value: Option<string>)

  /** Bookkeeping for the statements, indexed by uid: no step depends on it. */
  datatype History = History(origin: seq<Origin>, succeeded: set<nat>, runs: map<nat, nat>, visits: map<nat, nat>)

  datatype State = State(lanes: map<Tp, Lane>, retry: Lane, dlq: Lane, inflight: Inflight, rows: seq<Row>,
                         requests: map<nat, Request>, history: History)

  function Tally(counts: map<nat, nat>, uid: nat): nat {
    if uid in counts then counts[uid] else 0
  }

  // --------------------------------------------------------------- consumers

  function PutMain(s: State, tp: Tp, m: Msg): State
    requires tp in s.lanes
  {
    s.(lanes := s.lanes[tp := s.lanes[tp].Put(m)])
  }

  function AdvanceMain(s: State, tp: Tp): State
    requires tp in s.lanes
  {
    s.(lanes := s.lanes[tp := s.lanes[tp].Advance()])
  }

  /** A message enters a main topic under a new uid. */
  function Enter(s: State, tp: Tp, key: Option<string>, value: Option<string>, headers: Headers): State
    requires tp in s.lanes
  {
    var uid := |s.history.origin|;
    PutMain(s.(history := s.history.(origin := s.history.origin + [Origin(tp.topic, key, value)])),
            tp, Msg(key, value, headers, uid))
  }

  function Publish(s: State, tier: Tier, m: Msg): State {
    match tier {
      case RetryTier =>
        s.(retry := s.retry.Put(m), history := s.history.(visits := s.history.visits[m.uid := Tally(s.history.visits, m.uid) + 1]))
      case DeadLetter => s.(dlq := s.dlq.Put(m))
    }
  }

  function ContextAt(s: State, tp: Tp): Context
    requires tp in s.lanes && s.lanes[tp].Pending()
  {
    Context(tp.topic, tp.partition, s.lanes[tp].pos, s.lanes[tp].log[s.lanes[tp].pos])
  }

  /** The handler ran once. */
  function Ran(s: State, inflight: Inflight, uid: nat, outcome: Outcome): State {
    s.(inflight := inflight,
       history := s.history.(runs := s.history.runs[uid := Tally(s.history.runs, uid) + 1],
                             succeeded := s.history.succeeded + if outcome.Success? then {uid} else {}))
  }

  /** A consumer delivers the message at its position; one without a value is skipped. */
  function Handle(cfg: Config, s: State, tp: Tp, outcome: Outcome, now: nat, sent: Send): State
    requires tp in s.lanes && s.lanes[tp].Pending()
  {
    var ctx := ContextAt(s, tp);
    if ctx.message.value.None? then AdvanceMain(s, tp)
    else
      var d := Decide(s.inflight, cfg, ctx, outcome, now);
      var s1 := Ran(s, d.inflight, ctx.message.uid, outcome);
      match d.verdict {
        case Done => AdvanceMain(s1, tp)
        case Again => s1
        case Escalate(tier, copy) =>
          match sent {
            case Lost => s1
            case AckLost => Publish(s1, tier, copy)
            case Acked => AdvanceMain(Publish(s1, tier, copy), tp)
          }
      }
  }

  /** The message the retry worker puts back; None when it drops the message. */
  function Bounced(m: Msg): Option<(string, Msg)> {
    if m.value.None? then None
    else
      var h := Materialize(m.headers);
      if ORIGINAL_TOPIC !in h || h[ORIGINAL_TOPIC] == "" then None
      else Some((h[ORIGINAL_TOPIC], m.(headers := OnWire(h))))
  }

  /** The retry worker's step, once the delay is over. */
  function Bounce(s: State, partition: nat, sent: Send): State
    requires s.retry.Pending()
  {
    match Bounced(s.retry.log[s.retry.pos]) {
      case None => s.(retry := s.retry.Advance())
      case Some((topic, m)) =>
        var tp := Tp(topic, partition);
        if tp !in s.lanes then s   // the broker only picks partitions that exist
        else
          match sent {
            case Lost => s
            case AckLost => PutMain(s, tp, m)
            case Acked => PutMain(s, tp, m).(retry := s.retry.Advance())
          }
    }
  }

  // ------------------------------------------------------------ dead letters

  /** The number in a header, or the default where there is none; None when the header is no number. */
  function NumberIn(h: map<string, string>, name: string, default: nat): Option<nat> {
    if name in h then ParseLeading(h[name]) else Some(default)
  }

  /** The row the monitor stores for a dead letter; None when there is no value or the insert fails on a number that is none. */
  function Mirrored(dlqTopic: string, partition: nat, offset: nat, m: Msg): Option<Row> {
    if m.value.None? then None
    else
      var h := Materialize(m.headers);
      var originalPartition, attempt := NumberIn(h, ORIGINAL_PARTITION, partition), NumberIn(h, ATTEMPT, 0);
      if originalPartition.None? || attempt.None? then None
      else
        Some(Row(if ORIGINAL_TOPIC in h then h[ORIGINAL_TOPIC] else dlqTopic,
                 originalPartition.value,
                 if ORIGINAL_OFFSET in h then h[ORIGINAL_OFFSET] else NatText(offset),
                 m.value.value, h,
                 if WORKER in h then h[WORKER] else "unknown",
                 if LAST_ERROR in h then h[LAST_ERROR] else "(no error header)",
                 attempt.value,
                 if REPLAY_OF in h then ParseNat(h[REPLAY_OF]) else None,
                 None))
  }

  const DLQ_TOPIC := "orbit.dlq.v1"

  /** The monitor takes the next dead letter; an insert that fails is logged and the message is passed over. */
  function Mirror(s: State, stored: bool): State
    requires s.dlq.Pending()
  {
    var s1 := s.(dlq := s.dlq.Advance());
    match Mirrored(DLQ_TOPIC, 0, s.dlq.pos, s.dlq.log[s.dlq.pos]) {
      case None => s1
      case Some(row) => if stored then s1.(rows := s.rows + [row]) else s1
    }
  }

  const TRACEPARENT := "traceparent"
  const ORIGINAL_KEY := "x-orbit-original-key"

  /** Only the trace context survives a replay; the row's id marks the lineage. */
  function ReplayHeaders(id: nat, row: Row): map<string, string> {
    var keep := if TRACEPARENT in row.headers && row.headers[TRACEPARENT] != "" then map[TRACEPARENT := row.headers[TRACEPARENT]] else map[];
    keep[REPLAY_OF := NatText(id)]
  }

  function ReplayKey(row: Row): string {
    if ORIGINAL_KEY in row.headers then row.headers[ORIGINAL_KEY] else row.originalOffset
  }

  predicate Open(s: State, id: nat) {
    id < |s.rows| && s.rows[id].resolution.None?
  }

  function Resolve(rows: seq<Row>, id: nat, r: Resolution): seq<Row>
    requires id < |rows|
  {
    rows[id := rows[id].(resolution := Some(r))]
  }

  /** `replay` and `dismiss` begin by reading the row: unknown and resolved rows are refused. */
  function Begin(s: State, q: nat, r: Request): State {
    if q !in s.requests && Open(s, r.id) && !r.ReplaySent? then s.(requests := s.requests[q := r]) else s
  }

  function End(s: State, q: nat): State {
    s.(requests := s.requests - {q})
  }

  /** The publish of a replay, from the row as it was read; nothing in a row but its resolution ever changes. */
  function SendReplay(s: State, q: nat, partition: nat, sent: Send): State {
    if q !in s.requests || !s.requests[q].ReplayRead? || s.requests[q].id >= |s.rows| then s
    else
      var id := s.requests[q].id;
      var row := s.rows[id];
      var tp := Tp(row.originalTopic, partition);
      if tp !in s.lanes then s
      else if sent.Lost? then End(s, q)
      else
        var s1 := Enter(s, tp, Some(ReplayKey(row)), Some(row.payload), OnWire(ReplayHeaders(id, row)));
        if sent.Acked? then s1.(requests := s1.requests[q := ReplaySent(id)]) else End(s1, q)
  }

  /** The update that ends a request, unconditional on the row; it may fail. */
  function MarkRow(s: State, q: nat, ok: bool): State {
    if q !in s.requests || s.requests[q].ReplayRead? || s.requests[q].id >= |s.rows| then s
    else if !ok then End(s, q)
    else End(s.(rows := Resolve(s.rows, s.requests[q].id, if s.requests[q].ReplaySent? then Replayed else Dismissed)), q)
  }

  // ------------------------------------------------------------------ system

  datatype Action =
    | Produce(tp: Tp, key: Option<string>, value: Option<string>, headers: Headers)
    | HandleNext(tp: Tp, outcome: Outcome, now: nat, sent: Send)
    | CommitTo(tp: Tp, offset: nat)
    | Rebalance(tp: Tp)                      // the partition moves: position back to the committed offset
    | RestartConsumers                       // positions back, attempt counts lost
    | BounceNext(partition: nat, sent: Send)
    | CommitRetry(offset: nat)
    | RestartRetry
    | MirrorNext(stored: bool)
    | CommitDlq(offset: nat)
    | RestartMonitor
    | BeginRequest(request: nat, first: Request)
    | SendRow(request: nat, partition: nat, sent: Send)
    | MarkDone(request: nat, ok: bool)
    | Abandon(request: nat)                  // the API process dies

  function CommitLane(l: Lane, offset: nat): Lane {
    if l.committed <= offset <= l.pos then l.(committed := offset) else l
  }

  function Step(cfg: Config, s: State, a: Action): State {
    match a {
      case Produce(tp, key, value, headers) => if tp in s.lanes then Enter(s, tp, key, value, headers) else s
      case HandleNext(tp, outcome, now, sent) =>
        if tp in s.lanes && s.lanes[tp].Pending() then Handle(cfg, s, tp, outcome, now, sent) else s
      case CommitTo(tp, offset) => if tp in s.lanes then s.(lanes := s.lanes[tp := CommitLane(s.lanes[tp], offset)]) else s
      case Rebalance(tp) => if tp in s.lanes then s.(lanes := s.lanes[tp := s.lanes[tp].Rewind()]) else s
      case RestartConsumers => s.(lanes := map tp | tp in s.lanes :: s.lanes[tp].Rewind(), inflight := map[])
      case BounceNext(partition, sent) => if s.retry.Pending() then Bounce(s, partition, sent) else s
      case CommitRetry(offset) => s.(retry := CommitLane(s.retry, offset))
      case RestartRetry => s.(retry := s.retry.Rewind())
      case MirrorNext(stored) => if s.dlq.Pending() then Mirror(s, stored) else s
      case CommitDlq(offset) => s.(dlq := CommitLane(s.dlq, offset))
      case RestartMonitor => s.(dlq := s.dlq.Rewind())
      case BeginRequest(q, r) => Begin(s, q, r)
      case SendRow(q, partition, sent) => SendReplay(s, q, partition, sent)
      case MarkDone(q, ok) => MarkRow(s, q, ok)
      case Abandon(q) => End(s, q)
    }
  }

  function Run(cfg: Config, s: State, actions: seq<Action>): State
    decreases |actions|
  {
    if actions == [] then s else Run(cfg, Step(cfg, s, actions[0]), actions[1..])
  }

  /** Any set of partitions, nothing sent yet. */
  ghost predicate Initial(s: State) {
    && (forall tp :: tp in s.lanes ==> s.lanes[tp] == EMPTY_LANE)
    && (forall tp :: tp in s.lanes ==> tp.topic != "")
    && s.retry == EMPTY_LANE && s.dlq == EMPTY_LANE && s.inflight == map[] && s.rows == [] && s.requests == map[]
    && s.history == History([], {}, map[], map[])
  }

  // -------------------------------------------------------------- the workers

  /** The retry-30s consumer. */
  class RetryWorker {
    var republished: seq<(string, Msg)>

    constructor ()
      ensures republished == []
    {
      republished := [];
    }

    /** One delivery after the wait: `advance` is false when the worker throws and the message comes again. */
    method HandleMessage(m: Msg, sent: Send) returns (advance: bool)
      modifies this
      ensures republished == old(republished) + if Bounced(m).Some? && !sent.Lost? then [Bounced(m).value] else []
      ensures advance == (Bounced(m).None? || sent.Acked?)
    {
      if m.value.None? {
        return true;
      }
      var headers := MaterializeHeaders(m.headers);
      if ORIGINAL_TOPIC !in headers || headers[ORIGINAL_TOPIC] == "" {
        return true;
      }
      if !sent.Lost? {
        republished := republished + [(headers[ORIGINAL_TOPIC], m.(headers := OnWire(headers)))];
      }
      advance := sent.Acked?;
    }
  }

  /** The dead-letter table with its two writers, the monitor and the admin API. */
  class DlqTable {
    var rows: seq<Row>
    var sentBack: seq<(string, string, string, map<string, string>)>   // topic, key, value, headers

    constructor ()
      ensures rows == [] && sentBack == []
    {
      rows, sentBack := [], [];
    }

    /** `eachMessage` of the monitor. */
    method MirrorMessage(partition: nat, offset: nat, m: Msg, stored: bool)
      modifies `rows
      ensures rows == old(rows) + match Mirrored(DLQ_TOPIC, partition, offset, m) case None => [] case Some(row) => if stored then [row] else []
    {
      if m.value.None? {
        return;
      }
      var headers := MaterializeHeaders(m.headers);
      var replayedFrom := None;
      if REPLAY_OF in headers {
        replayedFrom := ParseNat(headers[REPLAY_OF]);
      }
      var originalPartition := NumberIn(headers, ORIGINAL_PARTITION, partition);
      var attempt := NumberIn(headers, ATTEMPT, 0);
      if stored && originalPartition.Some? && attempt.Some? {
        rows := rows + [Row(if ORIGINAL_TOPIC in headers then headers[ORIGINAL_TOPIC] else DLQ_TOPIC,
                            originalPartition.value,
                            if ORIGINAL_OFFSET in headers then headers[ORIGINAL_OFFSET] else NatText(offset),
                            m.value.value, headers,
                            if WORKER in headers then headers[WORKER] else "unknown",
                            if LAST_ERROR in headers then headers[LAST_ERROR] else "(no error header)",
                            attempt.value, replayedFrom, None)];
      }
    }

    /** The read both requests begin with: unknown and resolved rows are refused. */
    method ReadOpen(id: nat) returns (row: Option<Row>)
      ensures row == if id < |rows| && rows[id].resolution.None? then Some(rows[id]) else None
    {
      if id >= |rows| || rows[id].resolution.Some? {
        return None;
      }
      row := Some(rows[id]);
    }

    /** The publish of a replay. */
    method SendBack(id: nat, row: Row, sent: Send) returns (ok: bool)
      modifies `sentBack
      ensures ok == sent.Acked?
      ensures sentBack == old(sentBack) + if sent.Lost? then [] else [(row.originalTopic, ReplayKey(row), row.payload, ReplayHeaders(id, row))]
    {
      var cleanHeaders: map<string, string> := map[];
      if TRACEPARENT in row.headers && row.headers[TRACEPARENT] != "" {
        cleanHeaders := cleanHeaders[TRACEPARENT := row.headers[TRACEPARENT]];
      }
      cleanHeaders := cleanHeaders[REPLAY_OF := NatText(id)];
      if !sent.Lost? {
        sentBack := sentBack + [(row.originalTopic, ReplayKey(row), row.payload, cleanHeaders)];
      }
      ok := sent.Acked?;
    }

    /** The update both requests end with. It does not look at the row again. */
    method MarkResolved(id: nat, r: Resolution, ok: bool)
      requires id < |rows|
      modifies `rows
      ensures rows == if ok then Resolve(old(rows), id, r) else old(rows)
    {
      if ok {
        rows := rows[id := rows[id].(resolution := Some(r))];
      }
    }

    /** `replay` with no other request in between: a failed publish leaves the row unresolved. */
    method ReplayEvent(id: nat, sent: Send, marked: bool) returns (ok: bool)
      modifies this
      ensures var open := id < |old(rows)| && old(rows)[id].resolution.None?;
              && ok == (open && sent.Acked? && marked)
              && rows == (if ok then Resolve(old(rows), id, Replayed) else old(rows))
              && sentBack == old(sentBack) + if open && !sent.Lost?
                   then [(old(rows)[id].originalTopic, ReplayKey(old(rows)[id]), old(rows)[id].payload, ReplayHeaders(id, old(rows)[id]))]
                   else []
    {
      var row := ReadOpen(id);
      if row.None? {
        return false;
      }
      ok := SendBack(id, row.value, sent);
      if ok {
        MarkResolved(id, Replayed, marked);
        ok := marked;
      }
    }

    /** `dismiss` with no other request in between. */
    method DismissEvent(id: nat, marked: bool) returns (ok: bool)
      modifies `rows
      ensures ok == (id < |old(rows)| && old(rows)[id].resolution.None? && marked)
      ensures rows == if ok then Resolve(old(rows), id, Dismissed) else old(rows)
    {
      var row := ReadOpen(id);
      if row.None? {
        return false;
      }
      MarkResolved(id, Dismissed, marked);
      ok := marked;
    }
  }
}
