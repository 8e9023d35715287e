/**
 No message is lost: whatever crashes, rewinds and failed publishes happen, a
 message that entered a main topic with a value has been handled, or a copy of
 it is still to be consumed, or it lies on the dead-letter topic.
 */
module NoLoss {
  import opened Wrappers
  import opened Decimals
  import opened RetryPolicy
  import opened Delivery

  datatype Place = OnMain(tp: Tp, offset: nat) | OnRetry(offset: nat) | OnDlq(offset: nat)

  predicate Exists(s: State, p: Place) {
    match p
    case OnMain(tp, o) => tp in s.lanes && o < |s.lanes[tp].log|
    case OnRetry(o) => o < |s.retry.log|
    case OnDlq(o) => o < |s.dlq.log|
  }

  function MsgOf(s: State, p: Place): Msg
    requires Exists(s, p)
  {
    match p
    case OnMain(tp, o) => s.lanes[tp].log[o]
    case OnRetry(o) => s.retry.log[o]
    case OnDlq(o) => s.dlq.log[o]
  }

  /** Not yet consumed; dead letters stay. */
  predicate Live(s: State, p: Place) {
    && Exists(s, p)
    && match p
       case OnMain(tp, o) => s.lanes[tp].pos <= o
       case OnRetry(o) => s.retry.pos <= o
       case OnDlq(o) => true
  }

  predicate LiveCopy(s: State, p: Place, uid: nat) {
    Live(s, p) && MsgOf(s, p).uid == uid
  }

  /** The message is what it was on entering: same key and value, on or on the way back to the same topic. */
  predicate Genuine(s: State, p: Place)
    requires Exists(s, p)
  {
    var m := MsgOf(s, p);
    && m.uid < |s.history.origin|
    && var o := s.history.origin[m.uid];
       && m.key == o.key && m.value == o.value && o.topic != ""
       && match p
          case OnMain(tp, _) => tp.topic == o.topic
          case OnRetry(_) => Addressed(m, o.topic)
          case OnDlq(_) => Addressed(m, o.topic)
  }

  /** Made by the policy: it names its topic, and its partition and attempt are numbers. */
  predicate Addressed(m: Msg, topic: string) {
    && ORIGINAL_TOPIC in m.headers && m.headers[ORIGINAL_TOPIC] == Bytes(topic)
    && Numeric(m, ORIGINAL_PARTITION) && Numeric(m, ATTEMPT)
  }

  predicate Numeric(m: Msg, name: string) {
    name in m.headers && m.headers[name].Bytes? && ParseLeading(m.headers[name].text).Some?
  }

  ghost predicate AllGenuine(s: State) {
    forall p :: Exists(s, p) ==> Genuine(s, p)
  }

  ghost predicate Safe(s: State, uid: nat) {
    uid in s.history.succeeded || exists p :: LiveCopy(s, p, uid)
  }

  ghost predicate AllSafe(s: State) {
    forall uid :: 0 <= uid < |s.history.origin| && s.history.origin[uid].value.Some? ==> Safe(s, uid)
  }

  predicate LaneOk(l: Lane) {
    l.committed <= l.pos <= |l.log|
  }

  ghost predicate LanesOk(s: State) {
    && (forall tp :: tp in s.lanes ==> LaneOk(s.lanes[tp]) && tp.topic != "")
    && LaneOk(s.retry) && LaneOk(s.dlq)
  }

  ghost predicate DeliveryInv(s: State) {
    LanesOk(s) && AllGenuine(s) && AllSafe(s)
  }

  /** Every live copy is still there and nothing is known less. */
  ghost predicate KeepsCopies(s: State, s1: State) {
    && s.history.origin <= s1.history.origin && s.history.succeeded <= s1.history.succeeded
    && forall p, uid :: LiveCopy(s, p, uid) ==> LiveCopy(s1, p, uid)
  }

  lemma SafeKept(s: State, s1: State, uid: nat)
    requires KeepsCopies(s, s1) && Safe(s, uid)
    ensures Safe(s1, uid)
  {
  }

  // ------------------------------------------------------------ elementary moves

  lemma PutMainKeeps(s: State, tp: Tp, m: Msg)
    requires LanesOk(s) && AllGenuine(s) && tp in s.lanes
    requires m.uid < |s.history.origin| && s.history.origin[m.uid] == Origin(tp.topic, m.key, m.value)
    ensures LanesOk(PutMain(s, tp, m)) && AllGenuine(PutMain(s, tp, m)) && KeepsCopies(s, PutMain(s, tp, m))
    ensures LiveCopy(PutMain(s, tp, m), OnMain(tp, |s.lanes[tp].log|), m.uid)
  {
    var s1 := PutMain(s, tp, m);
    forall p | Exists(s1, p) ensures Genuine(s1, p) {
      if p != OnMain(tp, |s.lanes[tp].log|) {
        assert Exists(s, p) && MsgOf(s1, p) == MsgOf(s, p) && Genuine(s, p);
      }
    }
  }

  lemma PublishKeeps(s: State, tier: Tier, m: Msg)
    requires LanesOk(s) && AllGenuine(s)
    requires m.uid < |s.history.origin| && s.history.origin[m.uid].topic != ""
    requires m.key == s.history.origin[m.uid].key && m.value == s.history.origin[m.uid].value
    requires Addressed(m, s.history.origin[m.uid].topic)
    ensures LanesOk(Publish(s, tier, m)) && AllGenuine(Publish(s, tier, m)) && KeepsCopies(s, Publish(s, tier, m))
    ensures LiveCopy(Publish(s, tier, m), if tier.RetryTier? then OnRetry(|s.retry.log|) else OnDlq(|s.dlq.log|), m.uid)
  {
    var s1 := Publish(s, tier, m);
    var q := if tier.RetryTier? then OnRetry(|s.retry.log|) else OnDlq(|s.dlq.log|);
    forall p | Exists(s1, p) ensures Genuine(s1, p) {
      if p != q {
        assert Exists(s, p) && MsgOf(s1, p) == MsgOf(s, p) && Genuine(s, p);
      }
    }
  }

  /** A message is left behind only once it is safe without the place it leaves. */
  ghost predicate SafeElsewhere(s: State, uid: nat, left: Place) {
    uid in s.history.succeeded || exists p :: p != left && LiveCopy(s, p, uid)
  }

  lemma LeavingKeeps(s: State, s1: State, left: Place)
    requires AllSafe(s) && s1.history.origin == s.history.origin && s1.history.succeeded == s.history.succeeded
    requires Exists(s, left) && MsgOf(s, left).uid < |s.history.origin|
    requires MsgOf(s, left).value == s.history.origin[MsgOf(s, left).uid].value
    requires forall p, uid :: p != left && LiveCopy(s, p, uid) ==> LiveCopy(s1, p, uid)
    requires MsgOf(s, left).value.Some? ==> SafeElsewhere(s, MsgOf(s, left).uid, left)
    ensures AllSafe(s1)
  {
  }

  lemma AdvanceMainKeeps(s: State, tp: Tp)
    requires DeliveryInv(s) && tp in s.lanes && s.lanes[tp].Pending()
    requires var m := s.lanes[tp].log[s.lanes[tp].pos]; m.value.Some? ==> SafeElsewhere(s, m.uid, OnMain(tp, s.lanes[tp].pos))
    ensures DeliveryInv(AdvanceMain(s, tp))
  {
    var s1 := AdvanceMain(s, tp);
    var left := OnMain(tp, s.lanes[tp].pos);
    assert Genuine(s, left);
    forall p | Exists(s1, p) ensures Genuine(s1, p) {
      assert Exists(s, p) && MsgOf(s1, p) == MsgOf(s, p) && Genuine(s, p);
    }
    LeavingKeeps(s, s1, left);
  }

  lemma AdvanceRetryKeeps(s: State)
    requires DeliveryInv(s) && s.retry.Pending()
    requires var m := s.retry.log[s.retry.pos]; m.value.Some? ==> SafeElsewhere(s, m.uid, OnRetry(s.retry.pos))
    ensures DeliveryInv(s.(retry := s.retry.Advance()))
  {
    var s1 := s.(retry := s.retry.Advance());
    var left := OnRetry(s.retry.pos);
    assert Genuine(s, left);
    forall p | Exists(s1, p) ensures Genuine(s1, p) {
      assert Exists(s, p) && MsgOf(s1, p) == MsgOf(s, p) && Genuine(s, p);
    }
    LeavingKeeps(s, s1, left);
  }

  /** Same logs, positions no further. */
  ghost predicate Rewound(s: State, s1: State) {
    && s1.history == s.history && s1.lanes.Keys == s.lanes.Keys
    && (forall tp :: tp in s.lanes ==> s1.lanes[tp].log == s.lanes[tp].log && s1.lanes[tp].pos <= s.lanes[tp].pos)
    && s1.retry.log == s.retry.log && s1.retry.pos <= s.retry.pos && s1.dlq.log == s.dlq.log
  }

  /** Rewinds and commits. */
  lemma RewindKeeps(s: State, s1: State)
    requires DeliveryInv(s) && LanesOk(s1) && Rewound(s, s1)
    ensures DeliveryInv(s1)
  {
    forall p | Exists(s1, p) ensures Genuine(s1, p) {
      assert Exists(s, p) && MsgOf(s1, p) == MsgOf(s, p) && Genuine(s, p);
    }
    forall uid | 0 <= uid < |s1.history.origin| && s1.history.origin[uid].value.Some? ensures Safe(s1, uid) {
      assert Safe(s, uid);
      SafeKept(s, s1, uid);
    }
  }

  lemma EnterKeeps(s: State, tp: Tp, key: Option<string>, value: Option<string>, headers: Headers)
    requires DeliveryInv(s) && tp in s.lanes
    ensures DeliveryInv(Enter(s, tp, key, value, headers))
  {
    var uid := |s.history.origin|;
    var s0 := s.(history := s.history.(origin := s.history.origin + [Origin(tp.topic, key, value)]));
    forall p | Exists(s0, p) ensures Genuine(s0, p) {
      assert Exists(s, p) && MsgOf(s0, p) == MsgOf(s, p) && Genuine(s, p);
    }
    var m := Msg(key, value, headers, uid);
    PutMainKeeps(s0, tp, m);
    var s1 := Enter(s, tp, key, value, headers);
    assert s1 == PutMain(s0, tp, m);
    assert KeepsCopies(s, s0);
    forall u | 0 <= u < |s1.history.origin| && s1.history.origin[u].value.Some? ensures Safe(s1, u) {
      if u < uid {
        assert Safe(s, u);
        SafeKept(s, s0, u);
        SafeKept(s0, s1, u);
      } else {
        assert LiveCopy(s1, OnMain(tp, |s.lanes[tp].log|), uid);
      }
    }
  }

  lemma AllSafeKept(s: State, s1: State)
    requires AllSafe(s) && KeepsCopies(s, s1) && s1.history.origin == s.history.origin
    ensures AllSafe(s1)
  {
  }

  lemma RanKeeps(s: State, inflight: Inflight, uid: nat, outcome: Outcome)
    requires DeliveryInv(s)
    ensures DeliveryInv(Ran(s, inflight, uid, outcome))
  {
    var s1 := Ran(s, inflight, uid, outcome);
    forall p | Exists(s1, p) ensures Genuine(s1, p) {
      assert Exists(s, p) && MsgOf(s1, p) == MsgOf(s, p) && Genuine(s, p);
    }
    AllSafeKept(s, s1);
  }

  lemma CopyAddressed(cfg: Config, ctx: Context, total: nat, error: string, target: Tier, now: nat)
    ensures Addressed(Copy(cfg, ctx, total, error, target, now), ctx.topic)
  {
    HeaderNamesDiffer();
    ParseLeadingRoundTrip(ctx.partition);
    ParseLeadingRoundTrip(total + 1);
  }

  // ------------------------------------------------------------------- steps

  lemma HandleKeeps(cfg: Config, s: State, tp: Tp, outcome: Outcome, now: nat, sent: Send)
    requires DeliveryInv(s) && tp in s.lanes && s.lanes[tp].Pending()
    ensures DeliveryInv(Handle(cfg, s, tp, outcome, now, sent))
  {
    hide AllGenuine, AllSafe, LanesOk;
    var ctx := ContextAt(s, tp);
    var m := ctx.message;
    var here := OnMain(tp, s.lanes[tp].pos);
    MessageGenuine(s, here);
    if m.value.None? {
      AdvanceMainKeeps(s, tp);
    } else {
      var d := Decide(s.inflight, cfg, ctx, outcome, now);
      var s1 := Ran(s, d.inflight, m.uid, outcome);
      RanKeeps(s, d.inflight, m.uid, outcome);
      match d.verdict {
        case Done => AdvanceMainKeeps(s1, tp);
        case Again =>
        case Escalate(tier, copy) =>
          CopyAddressed(cfg, ctx, Count(s.inflight, KeyOf(cfg, ctx)) + ParseAttempt(m), outcome.text, tier, now);
          PublishKeeps(s1, tier, copy);
          var s2 := Publish(s1, tier, copy);
          AllSafeKept(s1, s2);
          if sent.Acked? {
            var there := if tier.RetryTier? then OnRetry(|s1.retry.log|) else OnDlq(|s1.dlq.log|);
            assert there != here && LiveCopy(s2, there, m.uid);
            AdvanceMainKeeps(s2, tp);
          }
      }
    }
  }

  lemma MessageGenuine(s: State, p: Place)
    requires DeliveryInv(s) && Exists(s, p)
    ensures Genuine(s, p)
  {
  }

  lemma BounceKeeps(s: State, partition: nat, sent: Send)
    requires DeliveryInv(s) && s.retry.Pending()
    ensures DeliveryInv(Bounce(s, partition, sent))
  {
    hide AllGenuine, AllSafe;
    var m := s.retry.log[s.retry.pos];
    var here := OnRetry(s.retry.pos);
    MessageGenuine(s, here);
    var topic := s.history.origin[m.uid].topic;
    if m.value.None? {
      AdvanceRetryKeeps(s);
    } else {
      assert Bounced(m) == Some((topic, m.(headers := OnWire(Materialize(m.headers)))));
      var tp := Tp(topic, partition);
      if tp in s.lanes {
        var back := m.(headers := OnWire(Materialize(m.headers)));
        PutMainKeeps(s, tp, back);
        var s1 := PutMain(s, tp, back);
        AllSafeKept(s, s1);
        if sent.Acked? {
          var there := OnMain(tp, |s.lanes[tp].log|);
          assert there != here && LiveCopy(s1, there, m.uid);
          AdvanceRetryKeeps(s1);
        }
      }
    }
  }

  lemma MirrorKeeps(s: State, stored: bool)
    requires DeliveryInv(s) && s.dlq.Pending()
    ensures DeliveryInv(Mirror(s, stored))
  {
    var s1 := Mirror(s, stored);
    forall p | Exists(s1, p) ensures Genuine(s1, p) {
      assert Exists(s, p) && MsgOf(s1, p) == MsgOf(s, p) && Genuine(s, p);
    }
    AllSafeKept(s, s1);
  }

  /** Neither the table nor the requests in flight hold messages. */
  lemma AdminOnlyKeeps(s: State, rows: seq<Row>, requests: map<nat, Request>)
    requires DeliveryInv(s)
    ensures DeliveryInv(s.(rows := rows, requests := requests))
  {
    RewindKeeps(s, s.(rows := rows, requests := requests));
  }

  lemma SendReplayKeeps(s: State, q: nat, partition: nat, sent: Send)
    requires DeliveryInv(s)
    ensures DeliveryInv(SendReplay(s, q, partition, sent))
  {
    hide DeliveryInv, Enter;
    AdminOnlyKeeps(s, s.rows, s.requests - {q});
    if q in s.requests && s.requests[q].ReplayRead? && s.requests[q].id < |s.rows| {
      var id := s.requests[q].id;
      var row := s.rows[id];
      var tp := Tp(row.originalTopic, partition);
      if tp in s.lanes {
        EnterKeeps(s, tp, Some(ReplayKey(row)), Some(row.payload), OnWire(ReplayHeaders(id, row)));
        var s1 := Enter(s, tp, Some(ReplayKey(row)), Some(row.payload), OnWire(ReplayHeaders(id, row)));
        AdminOnlyKeeps(s1, s1.rows, s1.requests[q := ReplaySent(id)]);
        AdminOnlyKeeps(s1, s1.rows, s1.requests - {q});
      }
    }
  }

  /** Beginning, marking and abandoning a request. */
  predicate AdminOnly(a: Action) {
    a.BeginRequest? || a.MarkDone? || a.Abandon?
  }

  lemma AdminStep(cfg: Config, s: State, a: Action)
    requires AdminOnly(a)
    ensures var s1 := Step(cfg, s, a); s1 == s.(rows := s1.rows, requests := s1.requests)
  {
  }

  predicate MovesOffsets(a: Action) {
    a.CommitTo? || a.Rebalance? || a.RestartConsumers? || a.CommitRetry? || a.RestartRetry? || a.CommitDlq? || a.RestartMonitor?
  }

  lemma AdminKeeps(cfg: Config, s: State, a: Action)
    requires DeliveryInv(s) && AdminOnly(a)
    ensures DeliveryInv(Step(cfg, s, a))
  {
    hide DeliveryInv, Step;
    AdminStep(cfg, s, a);
    AdminOnlyKeeps(s, Step(cfg, s, a).rows, Step(cfg, s, a).requests);
  }

  lemma OffsetsRewind(cfg: Config, s: State, a: Action)
    requires LanesOk(s) && MovesOffsets(a)
    ensures LanesOk(Step(cfg, s, a)) && Rewound(s, Step(cfg, s, a))
  {
    hide Handle, Bounce, Mirror, SendReplay, MarkRow, Begin, End, Enter;
  }

  lemma OffsetsKeep(cfg: Config, s: State, a: Action)
    requires DeliveryInv(s) && MovesOffsets(a)
    ensures DeliveryInv(Step(cfg, s, a))
  {
    hide AllGenuine, AllSafe, LanesOk, Step, Rewound;
    OffsetsRewind(cfg, s, a);
    RewindKeeps(s, Step(cfg, s, a));
  }

  lemma StepKeeps(cfg: Config, s: State, a: Action)
    requires DeliveryInv(s)
    ensures DeliveryInv(Step(cfg, s, a))
  {
    hide DeliveryInv, Handle, Bounce, Mirror, Enter, SendReplay, MarkRow, Begin;
    match a {
      case Produce(tp, key, value, headers) => if tp in s.lanes { EnterKeeps(s, tp, key, value, headers); }
      case HandleNext(tp, outcome, now, sent) =>
        if tp in s.lanes && s.lanes[tp].Pending() { HandleKeeps(cfg, s, tp, outcome, now, sent); }
      case BounceNext(partition, sent) => if s.retry.Pending() { BounceKeeps(s, partition, sent); }
      case MirrorNext(stored) => if s.dlq.Pending() { MirrorKeeps(s, stored); }
      case SendRow(q, partition, sent) => SendReplayKeeps(s, q, partition, sent);
      case BeginRequest(q, r) => AdminKeeps(cfg, s, a);
      case MarkDone(q, ok) => AdminKeeps(cfg, s, a);
      case Abandon(q) => AdminKeeps(cfg, s, a);
      case CommitTo(tp, offset) => OffsetsKeep(cfg, s, a);
      case Rebalance(tp) => OffsetsKeep(cfg, s, a);
      case RestartConsumers => OffsetsKeep(cfg, s, a);
      case CommitRetry(offset) => OffsetsKeep(cfg, s, a);
      case RestartRetry => OffsetsKeep(cfg, s, a);
      case CommitDlq(offset) => OffsetsKeep(cfg, s, a);
      case RestartMonitor => OffsetsKeep(cfg, s, a);
    }
  }

  lemma {:induction false} RunKeeps(cfg: Config, s: State, actions: seq<Action>)
    requires DeliveryInv(s)
    ensures DeliveryInv(Run(cfg, s, actions))
    decreases |actions|
  {
    hide DeliveryInv, Step;
    if actions != [] {
      StepKeeps(cfg, s, actions[0]);
      RunKeeps(cfg, Step(cfg, s, actions[0]), actions[1..]);
    }
  }

  lemma InitialOk(s: State)
    requires Initial(s)
    ensures DeliveryInv(s)
  {
  }

  /**
   Over every run, with any crashes, rewinds and failed or half-failed
   publishes: a message that entered a main topic with a value was handled
   successfully, or an unconsumed copy is on a main or the retry topic, or it
   is on the dead-letter topic, in each case with the key, the value and the
   topic it came with.
   */
  lemma NothingIsLost(cfg: Config, s: State, actions: seq<Action>, uid: nat)
    requires Initial(s)
    requires var r := Run(cfg, s, actions); uid < |r.history.origin| && r.history.origin[uid].value.Some?
    ensures var r := Run(cfg, s, actions);
            uid in r.history.succeeded || exists p :: LiveCopy(r, p, uid) && Genuine(r, p)
  {
    InitialOk(s);
    RunKeeps(cfg, s, actions);
    var r := Run(cfg, s, actions);
    assert Safe(r, uid);
    if uid !in r.history.succeeded {
      var p :| LiveCopy(r, p, uid);
      assert Genuine(r, p);
    }
  }

  // -------------------------------------------------------------- the history

  lemma BounceHistory(s: State, partition: nat, sent: Send)
    requires s.retry.Pending()
    ensures Bounce(s, partition, sent).history == s.history
  {
    hide Bounced;
  }

  lemma SendHistory(s: State, q: nat, partition: nat, sent: Send)
    ensures var h := SendReplay(s, q, partition, sent).history; s.history.origin <= h.origin && h.succeeded == s.history.succeeded
  {
    hide ReplayHeaders, ReplayKey;
  }

  lemma HandleHistory(cfg: Config, s: State, tp: Tp, outcome: Outcome, now: nat, sent: Send)
    requires tp in s.lanes && s.lanes[tp].Pending()
    ensures Handle(cfg, s, tp, outcome, now, sent).history.origin == s.history.origin
  {
    hide Decide;
  }

  lemma OriginsGrow(cfg: Config, s: State, a: Action)
    ensures s.history.origin <= Step(cfg, s, a).history.origin
    ensures !a.HandleNext? ==> Step(cfg, s, a).history.succeeded == s.history.succeeded
  {
    hide Handle, Bounce, SendReplay, MarkRow, Begin, Mirrored;
    if a.HandleNext? && a.tp in s.lanes && s.lanes[a.tp].Pending() {
      HandleHistory(cfg, s, a.tp, a.outcome, a.now, a.sent);
    } else if a.BounceNext? && s.retry.Pending() {
      BounceHistory(s, a.partition, a.sent);
    } else if a.SendRow? {
      SendHistory(s, a.request, a.partition, a.sent);
    } else if AdminOnly(a) {
      AdminStep(cfg, s, a);
    }
  }

  /** Only a successful run of the handler marks a message as handled. */
  lemma SuccessMeansHandled(cfg: Config, s: State, a: Action, uid: nat)
    requires uid in Step(cfg, s, a).history.succeeded && uid !in s.history.succeeded
    ensures a.HandleNext? && a.outcome.Success? && a.tp in s.lanes && s.lanes[a.tp].Pending()
            && s.lanes[a.tp].log[s.lanes[a.tp].pos].uid == uid
  {
    hide Mirrored, Bounced, Handle;
    if a.HandleNext? && a.tp in s.lanes && s.lanes[a.tp].Pending() {
      HandleSucceeds(cfg, s, a.tp, a.outcome, a.now, a.sent);
    }
  }

  lemma HandleSucceeds(cfg: Config, s: State, tp: Tp, outcome: Outcome, now: nat, sent: Send)
    requires tp in s.lanes && s.lanes[tp].Pending()
    ensures Handle(cfg, s, tp, outcome, now, sent).history.succeeded
            == s.history.succeeded + if ContextAt(s, tp).message.value.Some? && outcome.Success? then {ContextAt(s, tp).message.uid} else {}
  {
    hide CopyHeaders;
  }
}
