/**
 Replay lineage: a replayed message that ends up dead again is mirrored with
 its parent's id, and parents come before their children.
 */
module Lineage {
  import opened Wrappers
  import opened Decimals
  import opened RetryPolicy
  import opened Delivery
  import opened NoLoss

  /** No producer other than the admin replay uses the lineage header. */
  predicate Unmarked(a: Action) {
    a.Produce? ==> REPLAY_OF !in a.headers
  }

  /** The marker as the monitor reads it. */
  function MarkOf(m: Msg): Option<string> {
    if REPLAY_OF in m.headers && Textual(m.headers[REPLAY_OF]) then Some(m.headers[REPLAY_OF].text) else None
  }

  /** A marked message names a row that has its payload and the topic it was sent back to. */
  predicate MarkOk(s: State, p: Place)
    requires Exists(s, p)
  {
    var m := MsgOf(s, p);
    REPLAY_OF in m.headers ==>
      && Textual(m.headers[REPLAY_OF])
      && var id := ParseNat(m.headers[REPLAY_OF].text);
         && id.Some? && id.value < |s.rows|
         && m.value == Some(s.rows[id.value].payload)
         && m.uid < |s.history.origin| && s.history.origin[m.uid].topic == s.rows[id.value].originalTopic
  }

  ghost predicate MarksOk(s: State) {
    forall p :: Exists(s, p) ==> MarkOk(s, p)
  }

  /** A child row has a smaller parent with the same payload and topic. */
  ghost predicate Linked(rows: seq<Row>) {
    forall i :: 0 <= i < |rows| && rows[i].replayedFrom.Some? ==>
      && rows[i].replayedFrom.value < i
      && rows[rows[i].replayedFrom.value].payload == rows[i].payload
      && rows[rows[i].replayedFrom.value].originalTopic == rows[i].originalTopic
  }

  ghost predicate LineageInv(s: State) {
    DeliveryInv(s) && MarksOk(s) && Linked(s.rows)
  }

  /** Rows are only added to and resolved. */
  ghost predicate RowsGrow(a: seq<Row>, b: seq<Row>) {
    |a| <= |b| && forall i :: 0 <= i < |a| ==> b[i].(resolution := None) == a[i].(resolution := None)
  }

  lemma ResolveGrows(rows: seq<Row>, id: nat, r: Resolution)
    requires id < |rows|
    ensures RowsGrow(rows, Resolve(rows, id, r)) && (Linked(rows) ==> Linked(Resolve(rows, id, r)))
  {
  }

  /** Messages that were there keep their marks; a new one must have a good one. */
  lemma MarksKept(s: State, s1: State, added: set<Place>)
    requires MarksOk(s) && RowsGrow(s.rows, s1.rows) && s.history.origin <= s1.history.origin
    requires forall p :: Exists(s1, p) && p !in added ==> Exists(s, p) && MsgOf(s1, p) == MsgOf(s, p)
    requires forall p :: p in added ==> Exists(s1, p) && MarkOk(s1, p)
    ensures MarksOk(s1)
  {
  }

  /** The marker survives an escalation unchanged. */
  lemma CopyKeepsMark(cfg: Config, ctx: Context, total: nat, error: string, target: Tier, now: nat)
    ensures var c := Copy(cfg, ctx, total, error, target, now);
            var m := ctx.message;
            && (REPLAY_OF in c.headers <==> REPLAY_OF in m.headers && Textual(m.headers[REPLAY_OF]))
            && (REPLAY_OF in c.headers ==> Textual(c.headers[REPLAY_OF]) && c.headers[REPLAY_OF].text == m.headers[REPLAY_OF].text)
  {
  }

  /** And the way back through the retry tier. */
  lemma BounceKeepsMark(m: Msg)
    requires Bounced(m).Some?
    ensures var c := Bounced(m).value.1;
            && (REPLAY_OF in c.headers <==> REPLAY_OF in m.headers && Textual(m.headers[REPLAY_OF]))
            && (REPLAY_OF in c.headers ==> Textual(c.headers[REPLAY_OF]) && c.headers[REPLAY_OF].text == m.headers[REPLAY_OF].text)
            && c.value == m.value && c.uid == m.uid && c.key == m.key
  {
  }

  lemma EnterMarks(s: State, tp: Tp, key: Option<string>, value: Option<string>, headers: Headers)
    requires MarksOk(s) && tp in s.lanes
    requires MarkOk(Enter(s, tp, key, value, headers), OnMain(tp, |s.lanes[tp].log|))
    ensures MarksOk(Enter(s, tp, key, value, headers))
  {
    MarksKept(s, Enter(s, tp, key, value, headers), {OnMain(tp, |s.lanes[tp].log|)});
  }

  /** What a delivery puts where: at most one copy of the message, with its mark. */
  lemma HandlePuts(cfg: Config, s: State, tp: Tp, outcome: Outcome, now: nat, sent: Send) returns (there: set<Place>)
    requires tp in s.lanes && s.lanes[tp].Pending()
    ensures var s1 := Handle(cfg, s, tp, outcome, now, sent);
            var m := ContextAt(s, tp).message;
            && s1.rows == s.rows && s1.history.origin == s.history.origin
            && (forall p :: Exists(s1, p) && p !in there ==> Exists(s, p) && MsgOf(s1, p) == MsgOf(s, p))
            && (forall p :: p in there ==> Exists(s1, p) && SameMark(m, MsgOf(s1, p)))
  {
    hide CopyHeaders, Tally, Target;
    var ctx := ContextAt(s, tp);
    var d := Decide(s.inflight, cfg, ctx, outcome, now);
    if ctx.message.value.Some? && d.verdict.Escalate? && !sent.Lost? {
      CopyKeepsMark(cfg, ctx, Count(s.inflight, KeyOf(cfg, ctx)) + ParseAttempt(ctx.message), outcome.text, d.verdict.tier, now);
      there := {if d.verdict.tier.RetryTier? then OnRetry(|s.retry.log|) else OnDlq(|s.dlq.log|)};
    } else {
      there := {};
    }
  }

  /** Same message, and the marker goes on unless it was no text. */
  predicate SameMark(m: Msg, c: Msg) {
    c.uid == m.uid && c.value == m.value && MarkOf(c) == MarkOf(m) && (REPLAY_OF in c.headers ==> MarkOf(c).Some?)
  }

  lemma HandleMarks(cfg: Config, s: State, tp: Tp, outcome: Outcome, now: nat, sent: Send)
    requires LineageInv(s) && tp in s.lanes && s.lanes[tp].Pending()
    ensures MarksOk(Handle(cfg, s, tp, outcome, now, sent))
  {
    hide DeliveryInv, Handle;
    assert MarkOk(s, OnMain(tp, s.lanes[tp].pos));
    var there := HandlePuts(cfg, s, tp, outcome, now, sent);
    MarksKept(s, Handle(cfg, s, tp, outcome, now, sent), there);
  }

  lemma BounceMarks(s: State, partition: nat, sent: Send)
    requires LineageInv(s) && s.retry.Pending()
    ensures MarksOk(Bounce(s, partition, sent))
  {
    hide DeliveryInv;
    var m := s.retry.log[s.retry.pos];
    assert MarkOk(s, OnRetry(s.retry.pos));
    var s1 := Bounce(s, partition, sent);
    if Bounced(m).Some? && Tp(Bounced(m).value.0, partition) in s.lanes && !sent.Lost? {
      var tp := Tp(Bounced(m).value.0, partition);
      BounceKeepsMark(m);
      MarksKept(s, s1, {OnMain(tp, |s.lanes[tp].log|)});
    } else {
      MarksKept(s, s1, {});
    }
  }

  // --------------------------------------------------- the mark, over a run

  /** A message of the later state is an old one, a new arrival, or a copy with the same mark. */
  ghost predicate FromBefore(s: State, s1: State, p: Place)
    requires Exists(s1, p)
  {
    || (Exists(s, p) && MsgOf(s1, p) == MsgOf(s, p))
    || MsgOf(s1, p).uid == |s.history.origin|
    || exists q :: Exists(s, q) && SameMark(MsgOf(s, q), MsgOf(s1, p))
  }

  ghost predicate AllFromBefore(s: State, s1: State) {
    forall p :: Exists(s1, p) ==> FromBefore(s, s1, p)
  }

  lemma HandleFromBefore(cfg: Config, s: State, tp: Tp, outcome: Outcome, now: nat, sent: Send)
    requires tp in s.lanes && s.lanes[tp].Pending()
    ensures AllFromBefore(s, Handle(cfg, s, tp, outcome, now, sent))
  {
    hide Handle;
    var there := HandlePuts(cfg, s, tp, outcome, now, sent);
    assert Exists(s, OnMain(tp, s.lanes[tp].pos));
  }

  lemma BounceFromBefore(s: State, partition: nat, sent: Send)
    requires s.retry.Pending()
    ensures AllFromBefore(s, Bounce(s, partition, sent))
  {
    hide Bounced;
    var m := s.retry.log[s.retry.pos];
    assert Exists(s, OnRetry(s.retry.pos));
    if Bounced(m).Some? {
      BounceKeepsMark(m);
      assert SameMark(MsgOf(s, OnRetry(s.retry.pos)), Bounced(m).value.1);
    }
  }

  lemma SendFromBefore(s: State, q: nat, partition: nat, sent: Send)
    ensures AllFromBefore(s, SendReplay(s, q, partition, sent))
  {
    hide ReplayHeaders, ReplayKey;
  }

  lemma OthersFromBefore(cfg: Config, s: State, a: Action)
    requires a.Produce? || a.MirrorNext? || AdminOnly(a) || MovesOffsets(a)
    ensures AllFromBefore(s, Step(cfg, s, a))
  {
    hide Handle, Bounce, SendReplay, MarkRow, Begin, Mirrored;
    if AdminOnly(a) {
      AdminStep(cfg, s, a);
    }
  }

  lemma StepFromBefore(cfg: Config, s: State, a: Action)
    ensures AllFromBefore(s, Step(cfg, s, a))
  {
    hide AllFromBefore, Handle, Bounce, SendReplay, MarkRow, Begin, Mirror, Enter;
    if a.HandleNext? {
      if a.tp in s.lanes && s.lanes[a.tp].Pending() {
        HandleFromBefore(cfg, s, a.tp, a.outcome, a.now, a.sent);
      } else {
        SameFromBefore(s);
      }
    } else if a.BounceNext? {
      if s.retry.Pending() { BounceFromBefore(s, a.partition, a.sent); } else { SameFromBefore(s); }
    } else if a.SendRow? {
      SendFromBefore(s, a.request, a.partition, a.sent);
    } else {
      OthersFromBefore(cfg, s, a);
    }
  }

  lemma SameFromBefore(s: State)
    ensures AllFromBefore(s, s)
  {
  }

  /** Every copy of the message carries this mark. */
  ghost predicate AllMarked(s: State, uid: nat, mark: Option<string>) {
    uid < |s.history.origin| && forall p :: Exists(s, p) && MsgOf(s, p).uid == uid ==> MarkOf(MsgOf(s, p)) == mark
  }

  lemma StepMarked(cfg: Config, s: State, a: Action, uid: nat, mark: Option<string>)
    requires AllMarked(s, uid, mark)
    ensures AllMarked(Step(cfg, s, a), uid, mark) && s.history.origin <= Step(cfg, s, a).history.origin
  {
    hide Step;
    StepFromBefore(cfg, s, a);
    OriginsGrow(cfg, s, a);
    var s1 := Step(cfg, s, a);
    forall p | Exists(s1, p) && MsgOf(s1, p).uid == uid ensures MarkOf(MsgOf(s1, p)) == mark {
      assert FromBefore(s, s1, p);
    }
  }

  /** Whatever happens to a message and its copies, the mark it was given stays. */
  lemma {:induction false} MarkStays(cfg: Config, s: State, actions: seq<Action>, uid: nat, mark: Option<string>)
    requires AllMarked(s, uid, mark)
    ensures AllMarked(Run(cfg, s, actions), uid, mark) && s.history.origin <= Run(cfg, s, actions).history.origin
    decreases |actions|
  {
    hide AllMarked, Step;
    if actions != [] {
      StepMarked(cfg, s, actions[0], uid, mark);
      MarkStays(cfg, Step(cfg, s, actions[0]), actions[1..], uid, mark);
    }
  }

  lemma SentMarked(s: State, q: nat, partition: nat, sent: Send)
    requires DeliveryInv(s) && q in s.requests && s.requests[q].ReplayRead? && s.requests[q].id < |s.rows|
    requires Tp(s.rows[s.requests[q].id].originalTopic, partition) in s.lanes && !sent.Lost?
    ensures var s1 := SendReplay(s, q, partition, sent);
            var row := s.rows[s.requests[q].id];
            && AllMarked(s1, |s.history.origin|, Some(NatText(s.requests[q].id)))
            && s1.history.origin == s.history.origin + [Origin(row.originalTopic, Some(ReplayKey(row)), Some(row.payload))]
  {
    hide AllSafe, ReplayKey;
    var s1 := SendReplay(s, q, partition, sent);
    forall p | Exists(s1, p) && MsgOf(s1, p).uid == |s.history.origin| ensures MarkOf(MsgOf(s1, p)) == Some(NatText(s.requests[q].id)) {
      if Exists(s, p) && MsgOf(s1, p) == MsgOf(s, p) {
        MessageGenuine(s, p);
      }
    }
  }

  /**
   Whatever happens between a replay and the next dead letter - retries, the
   retry tier, crashes, rewinds, lost publishes, other producers - a message sent
   back from a row that ends up dead again is mirrored with that row's id as its
   parent, and with its payload and topic.
   */
  lemma ReplayedThenDead(cfg: Config, s: State, before: seq<Action>, q: nat, partition: nat, sent: Send, after: seq<Action>, offset: nat)
    requires Initial(s) && !sent.Lost?
    requires var r := Run(cfg, s, before);
             && q in r.requests && r.requests[q].ReplayRead? && r.requests[q].id < |r.rows|
             && Tp(r.rows[r.requests[q].id].originalTopic, partition) in r.lanes
    requires var r := Run(cfg, s, before);
             var end := Run(cfg, Step(cfg, r, SendRow(q, partition, sent)), after);
             offset < |end.dlq.log| && end.dlq.log[offset].uid == |r.history.origin|
    ensures var r := Run(cfg, s, before);
            var end := Run(cfg, Step(cfg, r, SendRow(q, partition, sent)), after);
            var parent := r.rows[r.requests[q].id];
            var row := Mirrored(DLQ_TOPIC, 0, offset, end.dlq.log[offset]);
            && row.Some? && row.value.replayedFrom == Some(r.requests[q].id)
            && row.value.payload == parent.payload && row.value.originalTopic == parent.originalTopic
  {
    hide Run, Step, DeliveryInv, ReplayKey;
    InitialOk(s);
    RunKeeps(cfg, s, before);
    var r := Run(cfg, s, before);
    var id := r.requests[q].id;
    var r1 := Step(cfg, r, SendRow(q, partition, sent));
    RequestSteps(cfg, r, q, ReplayRead(id), partition, sent, true);
    SentMarked(r, q, partition, sent);
    StepKeeps(cfg, r, SendRow(q, partition, sent));
    MarkStays(cfg, r1, after, |r.history.origin|, Some(NatText(id)));
    RunKeeps(cfg, r1, after);
    var end := Run(cfg, r1, after);
    MessageGenuine(end, OnDlq(offset));
    ParseNatRoundTrip(id);
    MirroredMark(offset, end.dlq.log[offset], r.rows[id].originalTopic);
    assert Exists(end, OnDlq(offset));
  }

  /** What the monitor stores for a message the policy has addressed. */
  lemma MirroredMark(offset: nat, m: Msg, topic: string)
    requires m.value.Some? && Addressed(m, topic)
    ensures var row := Mirrored(DLQ_TOPIC, 0, offset, m);
            && row.Some? && row.value.payload == m.value.value && row.value.originalTopic == topic
            && row.value.replayedFrom == match MarkOf(m) case None => None case Some(text) => ParseNat(text)
  {
    hide ParseLeading, ParseNat, NatText;
  }

  /** A dead letter that was a replay is mirrored with its parent's id, payload and topic. */
  lemma MirroredWithParent(s: State, offset: nat)
    requires LineageInv(s) && offset < |s.dlq.log| && REPLAY_OF in s.dlq.log[offset].headers
    ensures var row := Mirrored(DLQ_TOPIC, 0, offset, s.dlq.log[offset]);
            && row.Some? && Textual(s.dlq.log[offset].headers[REPLAY_OF])
            && row.value.replayedFrom == ParseNat(s.dlq.log[offset].headers[REPLAY_OF].text)
            && row.value.replayedFrom.Some? && row.value.replayedFrom.value < |s.rows|
            && s.rows[row.value.replayedFrom.value].payload == row.value.payload
            && s.rows[row.value.replayedFrom.value].originalTopic == row.value.originalTopic
  {
    assert MarkOk(s, OnDlq(offset)) && Genuine(s, OnDlq(offset));
  }

  /** A dead letter that was no replay is mirrored without a parent. */
  lemma MirroredWithoutParent(offset: nat, m: Msg)
    requires REPLAY_OF !in m.headers
    ensures var row := Mirrored(DLQ_TOPIC, 0, offset, m); row.Some? ==> row.value.replayedFrom.None?
  {
    hide ParseLeading, ParseNat, NatText;
  }

  lemma RowLinks(rows: seq<Row>, row: Row)
    requires Linked(rows)
    requires row.replayedFrom.Some? ==>
               && row.replayedFrom.value < |rows|
               && rows[row.replayedFrom.value].payload == row.payload
               && rows[row.replayedFrom.value].originalTopic == row.originalTopic
    ensures Linked(rows + [row]) && RowsGrow(rows, rows + [row])
  {
  }

  lemma MirrorLinks(s: State, stored: bool)
    requires LineageInv(s) && s.dlq.Pending()
    ensures MarksOk(Mirror(s, stored)) && Linked(Mirror(s, stored).rows) && RowsGrow(s.rows, Mirror(s, stored).rows)
  {
    hide DeliveryInv, MarksOk, Linked, Mirrored, MarkOk;
    var m := s.dlq.log[s.dlq.pos];
    var row := Mirrored(DLQ_TOPIC, 0, s.dlq.pos, m);
    if REPLAY_OF in m.headers {
      MirroredWithParent(s, s.dlq.pos);
    } else {
      MirroredWithoutParent(s.dlq.pos, m);
    }
    if row.Some? {
      RowLinks(s.rows, row.value);
    }
    MarksKept(s, Mirror(s, stored), {});
  }

  lemma SendReplayMarks(s: State, q: nat, partition: nat, sent: Send)
    requires MarksOk(s)
    ensures MarksOk(SendReplay(s, q, partition, sent)) && SendReplay(s, q, partition, sent).rows == s.rows
  {
    AdminOnlyMarks(s, s.rows, s.requests - {q});
    if q in s.requests && s.requests[q].ReplayRead? && s.requests[q].id < |s.rows| {
      var id := s.requests[q].id;
      var row := s.rows[id];
      var tp := Tp(row.originalTopic, partition);
      if tp in s.lanes {
        ReplayMarked(s, id, tp);
        var s1 := Enter(s, tp, Some(ReplayKey(row)), Some(row.payload), OnWire(ReplayHeaders(id, row)));
        hide MarksOk, Enter;
        AdminOnlyMarks(s1, s1.rows, s1.requests[q := ReplaySent(id)]);
        AdminOnlyMarks(s1, s1.rows, s1.requests - {q});
      }
    }
  }

  /** A replay carries its row's id, payload and topic. */
  lemma ReplayMarked(s: State, id: nat, tp: Tp)
    requires MarksOk(s) && id < |s.rows| && tp in s.lanes && tp.topic == s.rows[id].originalTopic
    ensures var row := s.rows[id];
            MarksOk(Enter(s, tp, Some(ReplayKey(row)), Some(row.payload), OnWire(ReplayHeaders(id, row))))
  {
    hide MarksOk;
    var row := s.rows[id];
    ParseNatRoundTrip(id);
    EnterMarks(s, tp, Some(ReplayKey(row)), Some(row.payload), OnWire(ReplayHeaders(id, row)));
  }

  lemma AdminOnlyMarks(s: State, rows: seq<Row>, requests: map<nat, Request>)
    requires MarksOk(s) && RowsGrow(s.rows, rows)
    ensures MarksOk(s.(rows := rows, requests := requests))
  {
    MarksKept(s, s.(rows := rows, requests := requests), {});
  }

  /** A request without its publish touches at most the resolution of one row. */
  lemma AdminRows(cfg: Config, s: State, a: Action)
    requires AdminOnly(a)
    ensures RowsGrow(s.rows, Step(cfg, s, a).rows) && (Linked(s.rows) ==> Linked(Step(cfg, s, a).rows))
  {
    hide Linked;
    if a.MarkDone? && a.request in s.requests && s.requests[a.request].id < |s.rows| {
      ResolveGrows(s.rows, s.requests[a.request].id, Replayed);
      ResolveGrows(s.rows, s.requests[a.request].id, Dismissed);
    }
  }

  lemma AdminMarks(cfg: Config, s: State, a: Action)
    requires MarksOk(s) && Linked(s.rows) && AdminOnly(a)
    ensures var s1 := Step(cfg, s, a); MarksOk(s1) && Linked(s1.rows) && RowsGrow(s.rows, s1.rows)
  {
    hide MarksOk, Linked, Step;
    AdminStep(cfg, s, a);
    AdminRows(cfg, s, a);
    AdminOnlyMarks(s, Step(cfg, s, a).rows, Step(cfg, s, a).requests);
  }

  lemma StepLineage(cfg: Config, s: State, a: Action)
    requires LineageInv(s) && Unmarked(a)
    ensures LineageInv(Step(cfg, s, a)) && RowsGrow(s.rows, Step(cfg, s, a).rows)
  {
    StepKeeps(cfg, s, a);
    hide DeliveryInv, MarksOk, Linked, Handle, Bounce, Mirrored, MarkOk, SendReplay, MarkRow, Begin, Enter;
    match a {
      case Produce(tp, key, value, headers) => if tp in s.lanes { ProduceMarks(s, tp, key, value, headers); }
      case HandleNext(tp, outcome, now, sent) =>
        if tp in s.lanes && s.lanes[tp].Pending() {
          HandleMarks(cfg, s, tp, outcome, now, sent);
          HandleKeepsRows(cfg, s, tp, outcome, now, sent);
        }
      case BounceNext(partition, sent) =>
        if s.retry.Pending() {
          BounceMarks(s, partition, sent);
          BounceKeepsRows(s, partition, sent);
        }
      case MirrorNext(stored) => if s.dlq.Pending() { MirrorLinks(s, stored); }
      case SendRow(q, partition, sent) => SendReplayMarks(s, q, partition, sent);
      case BeginRequest(q, r) => AdminMarks(cfg, s, a);
      case MarkDone(q, ok) => AdminMarks(cfg, s, a);
      case Abandon(q) => AdminMarks(cfg, s, a);
      case CommitTo(tp, offset) => OffsetMarks(cfg, s, a);
      case Rebalance(tp) => OffsetMarks(cfg, s, a);
      case RestartConsumers => OffsetMarks(cfg, s, a);
      case CommitRetry(offset) => OffsetMarks(cfg, s, a);
      case RestartRetry => OffsetMarks(cfg, s, a);
      case CommitDlq(offset) => OffsetMarks(cfg, s, a);
      case RestartMonitor => OffsetMarks(cfg, s, a);
    }
  }

  lemma OffsetMarks(cfg: Config, s: State, a: Action)
    requires MarksOk(s) && MovesOffsets(a)
    ensures MarksOk(Step(cfg, s, a)) && Step(cfg, s, a).rows == s.rows
  {
    hide MarkOk, MarksOk;
    MarksKept(s, Step(cfg, s, a), {});
  }

  lemma ProduceMarks(s: State, tp: Tp, key: Option<string>, value: Option<string>, headers: Headers)
    requires MarksOk(s) && tp in s.lanes && REPLAY_OF !in headers
    ensures MarksOk(Enter(s, tp, key, value, headers))
  {
    EnterMarks(s, tp, key, value, headers);
  }

  lemma HandleKeepsRows(cfg: Config, s: State, tp: Tp, outcome: Outcome, now: nat, sent: Send)
    requires tp in s.lanes && s.lanes[tp].Pending()
    ensures Handle(cfg, s, tp, outcome, now, sent).rows == s.rows
  {
  }

  lemma BounceKeepsRows(s: State, partition: nat, sent: Send)
    requires s.retry.Pending()
    ensures Bounce(s, partition, sent).rows == s.rows
  {
  }

  lemma {:induction false} RunLineage(cfg: Config, s: State, actions: seq<Action>)
    requires LineageInv(s) && forall i :: 0 <= i < |actions| ==> Unmarked(actions[i])
    ensures LineageInv(Run(cfg, s, actions))
    decreases |actions|
  {
    hide LineageInv, Step;
    if actions != [] {
      StepLineage(cfg, s, actions[0]);
      RunLineage(cfg, Step(cfg, s, actions[0]), actions[1..]);
    }
  }

  /** A row and its ancestors. */
  ghost function Chain(rows: seq<Row>, id: nat): seq<nat>
    requires Linked(rows) && id < |rows|
    decreases id
  {
    if rows[id].replayedFrom.None? then [id] else [id] + Chain(rows, rows[id].replayedFrom.value)
  }

  /** Every chain of replays goes down to a row that is not a replay, with one payload and one topic all along. */
  lemma {:induction false} ChainsEnd(rows: seq<Row>, id: nat)
    requires Linked(rows) && id < |rows|
    ensures var c := Chain(rows, id);
            && c != [] && c[0] == id
            && (forall i :: 0 <= i < |c| ==> c[i] < |rows| && rows[c[i]].payload == rows[id].payload && rows[c[i]].originalTopic == rows[id].originalTopic)
            && (forall i, j :: 0 <= i < j < |c| ==> c[j] < c[i])
            && rows[c[|c| - 1]].replayedFrom.None?
    decreases id
  {
    if rows[id].replayedFrom.Some? {
      var parent := rows[id].replayedFrom.value;
      ChainsEnd(rows, parent);
      var t := Chain(rows, parent);
      var c := Chain(rows, id);
      assert forall i :: 1 <= i < |c| ==> c[i] == t[i - 1];
    }
  }

  /** In every reachable state the replay links form a forest. */
  lemma ReplayLinksFormForest(cfg: Config, s: State, actions: seq<Action>)
    requires Initial(s) && forall i :: 0 <= i < |actions| ==> Unmarked(actions[i])
    ensures Linked(Run(cfg, s, actions).rows)
  {
    InitialOk(s);
    RunLineage(cfg, s, actions);
  }

  /** A replayed message starts over: its attempt header is gone and the marker is set. */
  lemma ReplayStartsOver(s: State, q: nat, partition: nat)
    requires q in s.requests && s.requests[q].ReplayRead? && s.requests[q].id < |s.rows|
    requires Tp(s.rows[s.requests[q].id].originalTopic, partition) in s.lanes
    ensures var row := s.rows[s.requests[q].id];
            var log := s.lanes[Tp(row.originalTopic, partition)].log;
            var log1 := SendReplay(s, q, partition, Acked).lanes[Tp(row.originalTopic, partition)].log;
            && |log1| == |log| + 1
            && ParseAttempt(log1[|log|]) == 0 && log1[|log|].value == Some(row.payload)
            && ReadHeader(log1[|log|].headers, REPLAY_OF) == Some(NatText(s.requests[q].id))
  {
  }

  // ------------------------------------------------- requests that overlap

  /** The action publishes row id or writes its resolution. */
  predicate Touches(s: State, a: Action, id: nat) {
    match a
    case SendRow(q, partition, sent) =>
      && q in s.requests && s.requests[q] == ReplayRead(id) && id < |s.rows|
      && Tp(s.rows[id].originalTopic, partition) in s.lanes && !sent.Lost?
    case MarkDone(q, ok) =>
      q in s.requests && !s.requests[q].ReplayRead? && s.requests[q].id == id && id < |s.rows| && ok
    case _ => false
  }

  /** Nothing else changes a stored row, or puts a message on a main topic that no producer put there. */
  lemma OnlyTouchesChange(cfg: Config, s: State, a: Action)
    ensures var s1 := Step(cfg, s, a);
            && (forall id :: 0 <= id < |s.rows| && !Touches(s, a, id) ==> id < |s1.rows| && s1.rows[id] == s.rows[id])
            && (|s1.history.origin| != |s.history.origin| ==> a.Produce? || exists id :: 0 <= id < |s.rows| && Touches(s, a, id))
  {
    hide Decide, Mirrored, Bounced;
    if a.SendRow? && a.request in s.requests {
      assert s.requests[a.request].id < |s.rows| ==> Touches(s, a, s.requests[a.request].id) || Step(cfg, s, a).history == s.history;
    }
  }

  /** Every row that is sent or written on the way is still unresolved at that moment. */
  ghost predicate ResolvedUntouched(cfg: Config, s: State, actions: seq<Action>)
    decreases |actions|
  {
    actions == []
    || ((forall id :: Touches(s, actions[0], id) ==> Open(s, id)) && ResolvedUntouched(cfg, Step(cfg, s, actions[0]), actions[1..]))
  }

  ghost predicate InFlight(s: State, id: nat) {
    exists q :: q in s.requests && s.requests[q].id == id
  }

  /** No request begins while another one for the same row is in flight. */
  ghost predicate BeginsAlone(cfg: Config, s: State, actions: seq<Action>)
    decreases |actions|
  {
    actions == []
    || ((actions[0].BeginRequest? ==> !InFlight(s, actions[0].first.id)) && BeginsAlone(cfg, Step(cfg, s, actions[0]), actions[1..]))
  }

  /** At most one request in flight for a row, and that row is unresolved. */
  ghost predicate Alone(s: State) {
    && (forall q :: q in s.requests ==> Open(s, s.requests[q].id))
    && (forall q, r :: q in s.requests && r in s.requests && s.requests[q].id == s.requests[r].id ==> q == r)
  }

  lemma OthersKeepRequests(cfg: Config, s: State, a: Action)
    requires !a.SendRow? && !AdminOnly(a)
    ensures var s1 := Step(cfg, s, a); s1.requests == s.requests && s.rows <= s1.rows
  {
    hide Decide, Mirrored, Bounced;
  }

  lemma StepAlone(cfg: Config, s: State, a: Action)
    requires Alone(s) && (a.BeginRequest? ==> !InFlight(s, a.first.id))
    ensures Alone(Step(cfg, s, a)) && forall id :: Touches(s, a, id) ==> Open(s, id)
  {
    hide Step;
    var s1 := Step(cfg, s, a);
    if a.SendRow? {
      assert s1.rows == s.rows && (s1.requests == s.requests || s1.requests == s.requests - {a.request}
        || (a.request in s.requests && s1.requests == s.requests[a.request := ReplaySent(s.requests[a.request].id)])) by {
        SendLeaves(s, a.request, a.partition, a.sent);
        assert s1 == SendReplay(s, a.request, a.partition, a.sent) by { RequestSteps(cfg, s, a.request, ReplayRead(0), a.partition, a.sent, true); }
      }
    } else if AdminOnly(a) {
      AdminAlone(cfg, s, a);
    } else {
      OthersKeepRequests(cfg, s, a);
    }
  }

  lemma RequestSteps(cfg: Config, s: State, q: nat, r: Request, partition: nat, sent: Send, ok: bool)
    ensures Step(cfg, s, BeginRequest(q, r)) == Begin(s, q, r)
    ensures Step(cfg, s, SendRow(q, partition, sent)) == SendReplay(s, q, partition, sent)
    ensures Step(cfg, s, MarkDone(q, ok)) == MarkRow(s, q, ok)
  {
    hide Begin, SendReplay, MarkRow;
  }

  lemma SendLeaves(s: State, q: nat, partition: nat, sent: Send)
    ensures var s1 := SendReplay(s, q, partition, sent);
            && s1.rows == s.rows
            && (s1.requests == s.requests || s1.requests == s.requests - {q}
                || (q in s.requests && s1.requests == s.requests[q := ReplaySent(s.requests[q].id)]))
  {
    hide ReplayKey, ReplayHeaders;
  }

  lemma AdminAlone(cfg: Config, s: State, a: Action)
    requires Alone(s) && AdminOnly(a) && (a.BeginRequest? ==> !InFlight(s, a.first.id))
    ensures Alone(Step(cfg, s, a))
  {
    hide Step, RowsGrow;
    RequestSteps(cfg, s, a.request, if a.BeginRequest? then a.first else ReplayRead(0), 0, Acked, if a.MarkDone? then a.ok else false);
    if a.Abandon? {
      AbandonStep(cfg, s, a.request);
    }
  }

  lemma AbandonStep(cfg: Config, s: State, q: nat)
    ensures Step(cfg, s, Abandon(q)) == End(s, q)
  {
    hide End;
  }

  lemma {:induction false} RunAlone(cfg: Config, s: State, actions: seq<Action>)
    requires Alone(s) && BeginsAlone(cfg, s, actions)
    ensures ResolvedUntouched(cfg, s, actions)
    decreases |actions|
  {
    hide Alone, Step, Touches, InFlight;
    if actions != [] {
      StepAlone(cfg, s, actions[0]);
      RunAlone(cfg, Step(cfg, s, actions[0]), actions[1..]);
    }
  }

  /** What is left to do for a request whose row's topic has this partition. */
  function Finish(s: State, q: nat, partition: nat): seq<Action>
    requires q in s.requests
  {
    (if s.requests[q].ReplayRead? then [SendRow(q, partition, Acked)] else []) + [MarkDone(q, true)]
  }

  predicate Routed(s: State, q: nat, partition: nat) {
    q in s.requests && s.requests[q].id < |s.rows| && Tp(s.rows[s.requests[q].id].originalTopic, partition) in s.lanes
  }

  lemma SendLeavesMark(s: State, q: nat, partition: nat)
    requires Routed(s, q, partition) && s.requests[q].ReplayRead?
    ensures var s1 := SendReplay(s, q, partition, Acked);
            && s1.rows == s.rows && s1.lanes.Keys == s.lanes.Keys && s1.requests == s.requests[q := ReplaySent(s.requests[q].id)]
            && |s1.history.origin| == |s.history.origin| + 1
  {
    hide ReplayKey, ReplayHeaders;
  }

  lemma OneRun(cfg: Config, s: State, a: Action)
    ensures Run(cfg, s, [a]) == Step(cfg, s, a)
    ensures BeginsAlone(cfg, s, [a]) <==> a.BeginRequest? ==> !InFlight(s, a.first.id)
    ensures ResolvedUntouched(cfg, s, [a]) <==> forall id :: Touches(s, a, id) ==> Open(s, id)
  {
    hide Step, Touches;
    assert Run(cfg, Step(cfg, s, a), []) == Step(cfg, s, a);
  }

  lemma TwoRuns(cfg: Config, s: State, a: Action, b: Action)
    requires !a.BeginRequest? && !b.BeginRequest?
    ensures Run(cfg, s, [a, b]) == Step(cfg, Step(cfg, s, a), b)
    ensures BeginsAlone(cfg, s, [a, b])
    ensures ResolvedUntouched(cfg, s, [a, b]) ==> forall id :: Touches(s, a, id) ==> Open(s, id)
  {
    hide Step, Touches;
    assert [a, b][1..] == [b];
    OneRun(cfg, Step(cfg, s, a), b);
  }

  /** A request in flight for a resolved row still touches it; for an unresolved row it resolves it under every other request. */
  lemma FinishTouches(cfg: Config, s: State, q: nat, partition: nat)
    requires Routed(s, q, partition)
    ensures BeginsAlone(cfg, s, Finish(s, q, partition))
    ensures !Open(s, s.requests[q].id) ==> !ResolvedUntouched(cfg, s, Finish(s, q, partition))
    ensures var s1 := Run(cfg, s, Finish(s, q, partition));
            && !Open(s1, s.requests[q].id) && s1.requests == s.requests - {q}
            && s1.lanes.Keys == s.lanes.Keys && RowsGrow(s.rows, s1.rows)
  {
    hide Run, BeginsAlone, ResolvedUntouched, SendReplay;
    var id := s.requests[q].id;
    if s.requests[q].ReplayRead? {
      SendLeavesMark(s, q, partition);
      TwoRuns(cfg, s, SendRow(q, partition, Acked), MarkDone(q, true));
      assert Finish(s, q, partition) == [SendRow(q, partition, Acked), MarkDone(q, true)];
      assert Touches(s, SendRow(q, partition, Acked), id);
    } else {
      OneRun(cfg, s, MarkDone(q, true));
      assert Finish(s, q, partition) == [MarkDone(q, true)];
      assert Touches(s, MarkDone(q, true), id);
    }
  }

  lemma {:induction false} RunsCompose(cfg: Config, s: State, a: seq<Action>, b: seq<Action>)
    requires BeginsAlone(cfg, s, a) && BeginsAlone(cfg, Run(cfg, s, a), b)
    requires !ResolvedUntouched(cfg, Run(cfg, s, a), b)
    ensures BeginsAlone(cfg, s, a + b) && !ResolvedUntouched(cfg, s, a + b)
    decreases |a|
  {
    hide Step, Touches, InFlight;
    if a == [] {
      assert a + b == b;
    } else {
      RunsCompose(cfg, Step(cfg, s, a[0]), a[1..], b);
      assert (a + b)[1..] == a[1..] + b;
    }
  }

  /**
   Whatever follows, as long as no request begins beside another one for its
   row, a resolved row is never sent and never written again - if and only if
   no two requests for one row are in flight, and none for a resolved row.
   */
  lemma ResolvedIsFinalExactly(cfg: Config, s: State)
    requires forall q :: q in s.requests ==> exists partition :: Routed(s, q, partition)
    ensures Alone(s) <==> forall actions :: BeginsAlone(cfg, s, actions) ==> ResolvedUntouched(cfg, s, actions)
  {
    hide Alone, BeginsAlone, ResolvedUntouched, Run;
    if Alone(s) {
      forall actions | BeginsAlone(cfg, s, actions) ensures ResolvedUntouched(cfg, s, actions) {
        RunAlone(cfg, s, actions);
      }
    } else {
      var actions := OverlapTouches(cfg, s);
      assert BeginsAlone(cfg, s, actions) && !ResolvedUntouched(cfg, s, actions);
    }
  }

  lemma OverlapTouches(cfg: Config, s: State) returns (actions: seq<Action>)
    requires !Alone(s)
    requires forall q :: q in s.requests ==> exists partition :: Routed(s, q, partition)
    ensures BeginsAlone(cfg, s, actions) && !ResolvedUntouched(cfg, s, actions)
  {
    hide BeginsAlone, ResolvedUntouched, Run, Finish;
    if q :| q in s.requests && !Open(s, s.requests[q].id) {
      var partition :| Routed(s, q, partition);
      actions := Finish(s, q, partition);
      FinishTouches(cfg, s, q, partition);
    } else {
      var q, r :| q in s.requests && r in s.requests && s.requests[q].id == s.requests[r].id && q != r;
      var partition :| Routed(s, q, partition);
      FinishTouches(cfg, s, q, partition);
      var s1 := Run(cfg, s, Finish(s, q, partition));
      assert Routed(s1, r, partition) && s1.requests[r] == s.requests[r];
      FinishTouches(cfg, s1, r, partition);
      actions := Finish(s, q, partition) + Finish(s1, r, partition);
      RunsCompose(cfg, s, Finish(s, q, partition), Finish(s1, r, partition));
    }
  }

  /** From the start, without overlapping requests, a resolved row is never sent or written again. */
  lemma ResolvedIsFinal(cfg: Config, s: State, actions: seq<Action>)
    requires Initial(s) && BeginsAlone(cfg, s, actions)
    ensures ResolvedUntouched(cfg, s, actions)
  {
    RunAlone(cfg, s, actions);
  }

  /** The overlap: a dismissal completes between a replay's read and its publish; the dismissed row is sent and ends as replayed. */
  lemma DismissedButReplayed(cfg: Config, s: State, id: nat, partition: nat, q: nat, r: nat)
    returns (read: State, dismissed: State, sent: State, marked: State)
    requires Open(s, id) && Tp(s.rows[id].originalTopic, partition) in s.lanes
    requires q !in s.requests && r !in s.requests && q != r
    ensures read == Step(cfg, Step(cfg, s, BeginRequest(q, ReplayRead(id))), BeginRequest(r, DismissRead(id)))
    ensures dismissed == Step(cfg, read, MarkDone(r, true))
            && id < |dismissed.rows| && dismissed.rows[id].resolution == Some(Dismissed)
    ensures sent == Step(cfg, dismissed, SendRow(q, partition, Acked)) && |sent.history.origin| == |dismissed.history.origin| + 1
    ensures marked == Step(cfg, sent, MarkDone(q, true)) && id < |marked.rows| && marked.rows[id].resolution == Some(Replayed)
  {
    hide Step, SendReplay, Resolve;
    RequestSteps(cfg, s, q, ReplayRead(id), partition, Acked, true);
    var begun := Begin(s, q, ReplayRead(id));
    RequestSteps(cfg, begun, r, DismissRead(id), partition, Acked, true);
    read := Begin(begun, r, DismissRead(id));
    RequestSteps(cfg, read, r, DismissRead(id), partition, Acked, true);
    dismissed := MarkRow(read, r, true);
    ResolvedRow(s.rows, id, Dismissed);
    RequestSteps(cfg, dismissed, q, DismissRead(id), partition, Acked, true);
    SendLeavesMark(dismissed, q, partition);
    sent := SendReplay(dismissed, q, partition, Acked);
    RequestSteps(cfg, sent, q, DismissRead(id), partition, Acked, true);
    marked := MarkRow(sent, q, true);
    ResolvedRow(dismissed.rows, id, Replayed);
  }

  lemma ResolvedRow(rows: seq<Row>, id: nat, r: Resolution)
    requires id < |rows|
    ensures |Resolve(rows, id, r)| == |rows| && Resolve(rows, id, r)[id] == rows[id].(resolution := Some(r))
  {
  }
}
