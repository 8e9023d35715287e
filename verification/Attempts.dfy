/**
 Exact attempt counts without faults, and a measure that every delivery step
 lowers whether or not there are faults.
 */
module Attempts {
  import opened Wrappers
  import opened RetryPolicy
  import opened Delivery
  import opened NoLoss

  // ------------------------------------------------------------ exact counts

  /** No rewinds of the consumers or the retry worker, no failed publish on the way, no foreign attempt header. */
  predicate Calm(a: Action) {
    match a
    case Produce(_, key, value, headers) => ParseAttempt(Msg(key, value, headers, 0)) == 0
    case HandleNext(_, _, _, sent) => sent.Acked?
    case BounceNext(_, sent) => sent.Acked?
    case Rebalance(_) => false
    case RestartConsumers => false
    case RestartRetry => false
    case CommitTo(_, _) => true
    case CommitRetry(_) => true
    case MirrorNext(_) => true
    case CommitDlq(_) => true
    case RestartMonitor => true
    case BeginRequest(_, _) => true
    case SendRow(_, _, _) => true
    case MarkDone(_, _) => true
    case Abandon(_) => true
  }

  function PlaceKey(cfg: Config, tp: Tp, offset: nat): AttemptKey {
    AttemptKey(cfg.worker, tp.topic, tp.partition, offset)
  }

  /** The attempt header and the in-memory count of a live copy say exactly how often its handler has run. */
  predicate Exact(cfg: Config, s: State, p: Place)
    requires Exists(s, p)
  {
    var m := MsgOf(s, p);
    var n := cfg.inFlightAttempts;
    var h := ParseAttempt(m);
    var runs, visits := Tally(s.history.runs, m.uid), Tally(s.history.visits, m.uid);
    match p
    case OnMain(tp, o) =>
      var mem := Count(s.inflight, PlaceKey(cfg, tp, o));
      && runs == h + mem
      && ((h == 0 && mem <= n && visits == 0) || (h == n + 1 && mem == 0 && visits == 1))
    case OnRetry(o) =>
      && runs == h == n + 1 && visits == 1
      && ATTEMPT in m.headers && Textual(m.headers[ATTEMPT])
    case OnDlq(o) =>
      && runs == h
      && ((h == n + 1 && visits == 0) || (h == n + 2 && visits == 1))
  }

  ghost predicate OneCopy(s: State) {
    forall p, q, uid :: LiveCopy(s, p, uid) && LiveCopy(s, q, uid) ==> p == q
  }

  ghost predicate AllExact(cfg: Config, s: State) {
    forall p, uid :: LiveCopy(s, p, uid) ==> Exact(cfg, s, p)
  }

  /** Counts exist only for messages that exist. */
  ghost predicate CountsBounded(cfg: Config, s: State) {
    && (forall k :: k in s.inflight ==>
          k.worker == cfg.worker && Tp(k.topic, k.partition) in s.lanes && k.offset < |s.lanes[Tp(k.topic, k.partition)].log|)
    && (forall u :: u in s.history.runs || u in s.history.visits ==> u < |s.history.origin|)
    && (forall u :: Tally(s.history.runs, u) <= cfg.inFlightAttempts + 2 && Tally(s.history.visits, u) <= 1)
  }

  ghost predicate Counted(cfg: Config, s: State) {
    DeliveryInv(s) && OneCopy(s) && AllExact(cfg, s) && CountsBounded(cfg, s)
  }

  /** Everything about a copy other than where it lies. */
  lemma CopiesOf(cfg: Config, s: State, p: Place, q: Place, uid: nat)
    requires Counted(cfg, s) && LiveCopy(s, p, uid)
    ensures Exact(cfg, s, p)
    ensures LiveCopy(s, q, uid) ==> q == p
  {
  }

  lemma EnterCounted(cfg: Config, s: State, tp: Tp, key: Option<string>, value: Option<string>, headers: Headers)
    requires Counted(cfg, s) && tp in s.lanes && ParseAttempt(Msg(key, value, headers, |s.history.origin|)) == 0
    ensures Counted(cfg, Enter(s, tp, key, value, headers))
  {
    hide AllSafe;
    EnterKeeps(s, tp, key, value, headers);
    var s1 := Enter(s, tp, key, value, headers);
    var added := OnMain(tp, |s.lanes[tp].log|);
    forall p, uid | LiveCopy(s1, p, uid) ensures Exact(cfg, s1, p) && (p == added || LiveCopy(s, p, uid)) && (p == added <==> uid == |s.history.origin|) {
      if p == added {
        assert PlaceKey(cfg, tp, |s.lanes[tp].log|) !in s.inflight;
      } else {
        assert LiveCopy(s, p, uid) && Exact(cfg, s, p) && Genuine(s, p);
      }
    }
    forall p, q, uid | LiveCopy(s1, p, uid) && LiveCopy(s1, q, uid) ensures p == q {
      if uid != |s.history.origin| {
        assert LiveCopy(s, p, uid) && LiveCopy(s, q, uid);
      }
    }
  }

  /** The place a handled or bounced message goes to, if any. */
  ghost predicate MovedCopy(cfg: Config, s: State, s1: State, from: Place, to: Option<Place>) {
    && Live(s, from)
    && (forall p, uid :: LiveCopy(s1, p, uid) && Some(p) != to ==> p != from && LiveCopy(s, p, uid))
    && (to.Some? ==> LiveCopy(s1, to.value, MsgOf(s, from).uid) && Exact(cfg, s1, to.value))
  }

  /** Counts of other messages are as before. */
  ghost predicate OthersSame(cfg: Config, s: State, s1: State, from: Place)
    requires Exists(s, from)
  {
    && (forall u :: u != MsgOf(s, from).uid ==>
          Tally(s1.history.runs, u) == Tally(s.history.runs, u) && Tally(s1.history.visits, u) == Tally(s.history.visits, u))
    && (forall tp, o :: OnMain(tp, o) != from ==> Count(s1.inflight, PlaceKey(cfg, tp, o)) == Count(s.inflight, PlaceKey(cfg, tp, o)))
  }

  lemma MoveCounted(cfg: Config, s: State, s1: State, from: Place, to: Option<Place>)
    requires Counted(cfg, s) && DeliveryInv(s1) && CountsBounded(cfg, s1)
    requires MovedCopy(cfg, s, s1, from, to) && OthersSame(cfg, s, s1, from)
    requires forall p :: Exists(s, p) ==> Exists(s1, p) && MsgOf(s1, p) == MsgOf(s, p)
    ensures Counted(cfg, s1)
  {
    hide DeliveryInv, CountsBounded;
    var moved := MsgOf(s, from).uid;
    assert LiveCopy(s, from, moved);
    forall p, uid | LiveCopy(s1, p, uid) && Some(p) != to ensures LiveCopy(s, p, uid) && uid != moved && Exact(cfg, s1, p) {
      assert LiveCopy(s, p, uid) && Exact(cfg, s, p);
    }
    forall p, q, uid | LiveCopy(s1, p, uid) && LiveCopy(s1, q, uid) ensures p == q {
      if Some(p) != to && Some(q) != to {
        assert LiveCopy(s, p, uid) && LiveCopy(s, q, uid);
      }
    }
  }

  lemma HandleCounted(cfg: Config, s: State, tp: Tp, outcome: Outcome, now: nat)
    requires Counted(cfg, s) && tp in s.lanes && s.lanes[tp].Pending()
    ensures Counted(cfg, Handle(cfg, s, tp, outcome, now, Acked))
  {
    hide Counted, DeliveryInv, CountsBounded, OthersSame, Handle;
    CountedSafe(cfg, s);
    HandleKeeps(cfg, s, tp, outcome, now, Acked);
    var s1 := Handle(cfg, s, tp, outcome, now, Acked);
    var ctx := ContextAt(s, tp);
    var d := Decide(s.inflight, cfg, ctx, outcome, now);
    if ctx.message.value.None? {
      SkipCounted(cfg, s, tp, outcome, now);
    } else {
      HandledCounts(cfg, s, s1, tp, outcome, now);
      if d.verdict.Done? {
        DoneCounted(cfg, s, tp, outcome, now);
      } else if d.verdict.Again? {
        AgainExact(cfg, s, tp, outcome, now);
        AgainCounted(cfg, s, tp, outcome, now);
      } else {
        EscalatedExact(cfg, s, tp, outcome, now);
        EscalatedCounted(cfg, s, tp, outcome, now);
      }
    }
  }

  lemma CountedSafe(cfg: Config, s: State)
    requires Counted(cfg, s)
    ensures DeliveryInv(s) && CountsBounded(cfg, s)
  {
  }

  lemma SkipCounted(cfg: Config, s: State, tp: Tp, outcome: Outcome, now: nat)
    requires Counted(cfg, s) && tp in s.lanes && s.lanes[tp].Pending() && ContextAt(s, tp).message.value.None?
    requires DeliveryInv(Handle(cfg, s, tp, outcome, now, Acked))
    ensures Counted(cfg, Handle(cfg, s, tp, outcome, now, Acked))
  {
    hide DeliveryInv, AllExact, OneCopy;
    MoveCounted(cfg, s, Handle(cfg, s, tp, outcome, now, Acked), OnMain(tp, s.lanes[tp].pos), None);
  }

  lemma DoneCounted(cfg: Config, s: State, tp: Tp, outcome: Outcome, now: nat)
    requires Counted(cfg, s) && tp in s.lanes && s.lanes[tp].Pending() && ContextAt(s, tp).message.value.Some?
    requires Decide(s.inflight, cfg, ContextAt(s, tp), outcome, now).verdict.Done?
    requires var s1 := Handle(cfg, s, tp, outcome, now, Acked);
             DeliveryInv(s1) && CountsBounded(cfg, s1) && OthersSame(cfg, s, s1, OnMain(tp, s.lanes[tp].pos))
    ensures Counted(cfg, Handle(cfg, s, tp, outcome, now, Acked))
  {
    hide DeliveryInv, AllExact, OneCopy, CountsBounded, OthersSame, Decide;
    MoveCounted(cfg, s, Handle(cfg, s, tp, outcome, now, Acked), OnMain(tp, s.lanes[tp].pos), None);
  }

  function Destination(s: State, tier: Tier): Place {
    if tier.RetryTier? then OnRetry(|s.retry.log|) else OnDlq(|s.dlq.log|)
  }

  lemma EscalatedCounted(cfg: Config, s: State, tp: Tp, outcome: Outcome, now: nat)
    requires Counted(cfg, s) && tp in s.lanes && s.lanes[tp].Pending() && ContextAt(s, tp).message.value.Some?
    requires Decide(s.inflight, cfg, ContextAt(s, tp), outcome, now).verdict.Escalate?
    requires var s1 := Handle(cfg, s, tp, outcome, now, Acked);
             var there := Destination(s, Decide(s.inflight, cfg, ContextAt(s, tp), outcome, now).verdict.tier);
             && DeliveryInv(s1) && CountsBounded(cfg, s1) && OthersSame(cfg, s, s1, OnMain(tp, s.lanes[tp].pos))
             && LiveCopy(s1, there, ContextAt(s, tp).message.uid) && Exact(cfg, s1, there)
    ensures Counted(cfg, Handle(cfg, s, tp, outcome, now, Acked))
  {
    hide DeliveryInv, AllExact, OneCopy, CountsBounded, OthersSame, Exact, Decide, Tally, Count;
    var there := Destination(s, Decide(s.inflight, cfg, ContextAt(s, tp), outcome, now).verdict.tier);
    MoveCounted(cfg, s, Handle(cfg, s, tp, outcome, now, Acked), OnMain(tp, s.lanes[tp].pos), Some(there));
  }

  /** What one handler run does to the counts and the logs. */
  ghost predicate RanOnce(cfg: Config, s: State, s1: State, tp: Tp, outcome: Outcome, now: nat)
    requires tp in s.lanes && s.lanes[tp].Pending()
  {
    var ctx := ContextAt(s, tp);
    var uid := ctx.message.uid;
    var d := Decide(s.inflight, cfg, ctx, outcome, now);
    var toRetry := d.verdict.Escalate? && d.verdict.tier.RetryTier?;
    && s1.inflight == d.inflight && s1.history.origin == s.history.origin
    && s1.history.runs == s.history.runs[uid := Tally(s.history.runs, uid) + 1]
    && s1.history.visits == (if toRetry then s.history.visits[uid := Tally(s.history.visits, uid) + 1] else s.history.visits)
    && s1.lanes.Keys == s.lanes.Keys && forall t :: t in s.lanes ==> s1.lanes[t].log == s.lanes[t].log
  }

  lemma HandleRanOnce(cfg: Config, s: State, tp: Tp, outcome: Outcome, now: nat)
    requires tp in s.lanes && s.lanes[tp].Pending() && ContextAt(s, tp).message.value.Some?
    ensures RanOnce(cfg, s, Handle(cfg, s, tp, outcome, now, Acked), tp, outcome, now)
  {
    hide CopyHeaders;
  }

  lemma TalliesAfter(cfg: Config, s: State, s1: State, tp: Tp, outcome: Outcome, now: nat, u: nat)
    requires Counted(cfg, s) && tp in s.lanes && s.lanes[tp].Pending() && RanOnce(cfg, s, s1, tp, outcome, now)
    ensures Tally(s1.history.runs, u) <= cfg.inFlightAttempts + 2 && Tally(s1.history.visits, u) <= 1
  {
    hide DeliveryInv, OneCopy;
    var here := OnMain(tp, s.lanes[tp].pos);
    assert LiveCopy(s, here, ContextAt(s, tp).message.uid) && Exact(cfg, s, here);
    assert Tally(s.history.runs, u) <= cfg.inFlightAttempts + 2;
  }

  lemma HandledCounts(cfg: Config, s: State, s1: State, tp: Tp, outcome: Outcome, now: nat)
    requires Counted(cfg, s) && tp in s.lanes && s.lanes[tp].Pending() && ContextAt(s, tp).message.value.Some?
    requires s1 == Handle(cfg, s, tp, outcome, now, Acked)
    ensures CountsBounded(cfg, s1) && OthersSame(cfg, s, s1, OnMain(tp, s.lanes[tp].pos))
  {
    hide Handle, AllExact, OneCopy, Exact, Tally, ParseAttempt;
    HandleRanOnce(cfg, s, tp, outcome, now);
    var ctx := ContextAt(s, tp);
    var here := OnMain(tp, s.lanes[tp].pos);
    assert Genuine(s, here);
    forall t, o | OnMain(t, o) != here ensures Count(s1.inflight, PlaceKey(cfg, t, o)) == Count(s.inflight, PlaceKey(cfg, t, o)) {
      OtherCountsKept(s.inflight, cfg, ctx, outcome, now, PlaceKey(cfg, t, o));
    }
    forall u ensures Tally(s1.history.runs, u) <= cfg.inFlightAttempts + 2 && Tally(s1.history.visits, u) <= 1 {
      TalliesAfter(cfg, s, s1, tp, outcome, now, u);
    }
    forall u | u != ctx.message.uid
      ensures Tally(s1.history.runs, u) == Tally(s.history.runs, u) && Tally(s1.history.visits, u) == Tally(s.history.visits, u)
    {
      OtherTally(s.history.runs, ctx.message.uid, Tally(s.history.runs, ctx.message.uid) + 1, u);
      OtherTally(s.history.visits, ctx.message.uid, Tally(s.history.visits, ctx.message.uid) + 1, u);
    }
  }

  lemma OtherTally(counts: map<nat, nat>, uid: nat, n: nat, u: nat)
    requires u != uid
    ensures Tally(counts[uid := n], u) == Tally(counts, u)
  {
  }

  lemma AgainExact(cfg: Config, s: State, tp: Tp, outcome: Outcome, now: nat)
    requires Counted(cfg, s) && tp in s.lanes && s.lanes[tp].Pending() && ContextAt(s, tp).message.value.Some?
    requires Decide(s.inflight, cfg, ContextAt(s, tp), outcome, now).verdict.Again?
    ensures Exact(cfg, Handle(cfg, s, tp, outcome, now, Acked), OnMain(tp, s.lanes[tp].pos))
  {
    assert LiveCopy(s, OnMain(tp, s.lanes[tp].pos), ContextAt(s, tp).message.uid);
    assert Exact(cfg, s, OnMain(tp, s.lanes[tp].pos));
  }

  lemma AgainCounted(cfg: Config, s: State, tp: Tp, outcome: Outcome, now: nat)
    requires Counted(cfg, s) && tp in s.lanes && s.lanes[tp].Pending() && ContextAt(s, tp).message.value.Some?
    requires Decide(s.inflight, cfg, ContextAt(s, tp), outcome, now).verdict.Again?
    requires var s1 := Handle(cfg, s, tp, outcome, now, Acked);
             && DeliveryInv(s1) && CountsBounded(cfg, s1) && OthersSame(cfg, s, s1, OnMain(tp, s.lanes[tp].pos))
             && Exact(cfg, s1, OnMain(tp, s.lanes[tp].pos))
    ensures Counted(cfg, Handle(cfg, s, tp, outcome, now, Acked))
  {
    hide DeliveryInv, CountsBounded;
    var s1 := Handle(cfg, s, tp, outcome, now, Acked);
    var here := OnMain(tp, s.lanes[tp].pos);
    var uid0 := ContextAt(s, tp).message.uid;
    assert LiveCopy(s, here, uid0);
    forall p, uid | LiveCopy(s1, p, uid) ensures Exact(cfg, s1, p) && LiveCopy(s, p, uid) {
      assert LiveCopy(s, p, uid) && Exact(cfg, s, p);
      if p != here {
        assert uid != uid0;
      }
    }
  }

  /** The copy made by an escalation carries the exact number of runs. */
  lemma EscalatedExact(cfg: Config, s: State, tp: Tp, outcome: Outcome, now: nat)
    requires Counted(cfg, s) && tp in s.lanes && s.lanes[tp].Pending() && ContextAt(s, tp).message.value.Some?
    requires Decide(s.inflight, cfg, ContextAt(s, tp), outcome, now).verdict.Escalate?
    ensures var d := Decide(s.inflight, cfg, ContextAt(s, tp), outcome, now);
            var there := Destination(s, d.verdict.tier);
            var s1 := Handle(cfg, s, tp, outcome, now, Acked);
            LiveCopy(s1, there, ContextAt(s, tp).message.uid) && Exact(cfg, s1, there)
  {
    hide AllGenuine, AllSafe, OneCopy, CountsBounded, CopyHeaders;
    var ctx := ContextAt(s, tp);
    var m := ctx.message;
    var here := OnMain(tp, s.lanes[tp].pos);
    assert LiveCopy(s, here, m.uid) && Exact(cfg, s, here);
    var total := Count(s.inflight, KeyOf(cfg, ctx)) + ParseAttempt(m);
    var d := Decide(s.inflight, cfg, ctx, outcome, now);
    CopyCarriesOn(cfg, ctx, total, outcome.text, d.verdict.tier, now);
    assert ATTEMPT in d.verdict.copy.headers by {
      assert ParseAttempt(d.verdict.copy) == total + 1 > 0;
    }
  }

  /** The message is back on its topic with the header it had, and nothing is counted for its new place. */
  lemma BouncedExact(cfg: Config, s: State, partition: nat)
    requires Counted(cfg, s) && s.retry.Pending() && Bounced(s.retry.log[s.retry.pos]).Some?
    requires Tp(Bounced(s.retry.log[s.retry.pos]).value.0, partition) in s.lanes
    ensures var tp := Tp(Bounced(s.retry.log[s.retry.pos]).value.0, partition);
            var there := OnMain(tp, |s.lanes[tp].log|);
            var s1 := Bounce(s, partition, Acked);
            LiveCopy(s1, there, s.retry.log[s.retry.pos].uid) && Exact(cfg, s1, there)
  {
    hide AllGenuine, AllSafe, OneCopy, AllExact;
    var m := s.retry.log[s.retry.pos];
    var here := OnRetry(s.retry.pos);
    assert LiveCopy(s, here, m.uid);
    CopiesOf(cfg, s, here, here, m.uid);
    var tp := Tp(Bounced(m).value.0, partition);
    assert PlaceKey(cfg, tp, |s.lanes[tp].log|) !in s.inflight;
  }

  lemma BounceCounted(cfg: Config, s: State, partition: nat)
    requires Counted(cfg, s) && s.retry.Pending()
    ensures Counted(cfg, Bounce(s, partition, Acked))
  {
    hide AllGenuine, AllSafe, OneCopy, AllExact, Exact, Bounced;
    BounceKeeps(s, partition, Acked);
    var s1 := Bounce(s, partition, Acked);
    var m := s.retry.log[s.retry.pos];
    var here := OnRetry(s.retry.pos);
    assert LiveCopy(s, here, m.uid);
    if Bounced(m).None? {
      MoveCounted(cfg, s, s1, here, None);
    } else {
      var tp := Tp(Bounced(m).value.0, partition);
      if tp in s.lanes {
        BouncedExact(cfg, s, partition);
        MoveCounted(cfg, s, s1, here, Some(OnMain(tp, |s.lanes[tp].log|)));
      }
    }
  }

  /** Steps that leave logs, positions and counts alone. */
  lemma UntouchedCounted(cfg: Config, s: State, s1: State)
    requires Counted(cfg, s) && DeliveryInv(s1)
    requires s1.inflight == s.inflight && s1.history == s.history && s1.lanes.Keys == s.lanes.Keys
    requires forall tp :: tp in s.lanes ==> s1.lanes[tp].log == s.lanes[tp].log && s1.lanes[tp].pos == s.lanes[tp].pos
    requires s1.retry.log == s.retry.log && s1.retry.pos == s.retry.pos && s1.dlq.log == s.dlq.log
    ensures Counted(cfg, s1)
  {
    hide DeliveryInv;
    forall p, uid | LiveCopy(s1, p, uid) ensures LiveCopy(s, p, uid) && Exact(cfg, s1, p) {
      assert LiveCopy(s, p, uid) && Exact(cfg, s, p);
    }
  }

  lemma AdminOnlyCounted(cfg: Config, s: State, rows: seq<Row>, requests: map<nat, Request>)
    requires Counted(cfg, s)
    ensures Counted(cfg, s.(rows := rows, requests := requests))
  {
    AdminOnlyKeeps(s, rows, requests);
    UntouchedCounted(cfg, s, s.(rows := rows, requests := requests));
  }

  lemma AdminCounted(cfg: Config, s: State, a: Action)
    requires Counted(cfg, s) && AdminOnly(a)
    ensures Counted(cfg, Step(cfg, s, a))
  {
    hide Counted, Step;
    AdminStep(cfg, s, a);
    AdminOnlyCounted(cfg, s, Step(cfg, s, a).rows, Step(cfg, s, a).requests);
  }

  /** A replay does not carry the attempt header on. */
  lemma ReplayIsFresh(id: nat, row: Row)
    ensures ATTEMPT !in OnWire(ReplayHeaders(id, row))
  {
    assert TRACEPARENT[0] == 't' && ATTEMPT[0] == 'x';
    HeaderNamesDiffer();
  }

  lemma SendReplayCounted(cfg: Config, s: State, q: nat, partition: nat, sent: Send)
    requires Counted(cfg, s)
    ensures Counted(cfg, SendReplay(s, q, partition, sent))
  {
    hide Counted, Enter, ReplayHeaders, ReplayKey;
    AdminOnlyCounted(cfg, s, s.rows, s.requests - {q});
    if q in s.requests && s.requests[q].ReplayRead? && s.requests[q].id < |s.rows| {
      var id := s.requests[q].id;
      var row := s.rows[id];
      var tp := Tp(row.originalTopic, partition);
      if tp in s.lanes {
        var headers := OnWire(ReplayHeaders(id, row));
        ReplayIsFresh(id, row);
        EnterCounted(cfg, s, tp, Some(ReplayKey(row)), Some(row.payload), headers);
        var s1 := Enter(s, tp, Some(ReplayKey(row)), Some(row.payload), headers);
        AdminOnlyCounted(cfg, s1, s1.rows, s1.requests[q := ReplaySent(id)]);
        AdminOnlyCounted(cfg, s1, s1.rows, s1.requests - {q});
      }
    }
  }

  lemma CalmStepCounted(cfg: Config, s: State, a: Action)
    requires Counted(cfg, s) && Calm(a)
    ensures Counted(cfg, Step(cfg, s, a))
  {
    hide DeliveryInv, OneCopy, AllExact, CountsBounded, Handle, Bounce, SendReplay, MarkRow, Begin, Enter, Mirrored;
    StepKeeps(cfg, s, a);
    var s1 := Step(cfg, s, a);
    match a {
      case Produce(tp, key, value, headers) => if tp in s.lanes { EnterCounted(cfg, s, tp, key, value, headers); }
      case HandleNext(tp, outcome, now, sent) =>
        if tp in s.lanes && s.lanes[tp].Pending() { HandleCounted(cfg, s, tp, outcome, now); }
      case BounceNext(partition, sent) => if s.retry.Pending() { BounceCounted(cfg, s, partition); }
      case SendRow(q, partition, sent) => SendReplayCounted(cfg, s, q, partition, sent);
      case BeginRequest(q, r) => AdminCounted(cfg, s, a);
      case MarkDone(q, ok) => AdminCounted(cfg, s, a);
      case Abandon(q) => AdminCounted(cfg, s, a);
      case MirrorNext(stored) => UntouchedCounted(cfg, s, s1);
      case CommitTo(tp, offset) => UntouchedCounted(cfg, s, s1);
      case CommitRetry(offset) => UntouchedCounted(cfg, s, s1);
      case CommitDlq(offset) => UntouchedCounted(cfg, s, s1);
      case RestartMonitor => UntouchedCounted(cfg, s, s1);
    }
  }

  lemma {:induction false} CalmRunCounted(cfg: Config, s: State, actions: seq<Action>)
    requires Counted(cfg, s) && forall i :: 0 <= i < |actions| ==> Calm(actions[i])
    ensures Counted(cfg, Run(cfg, s, actions))
    decreases |actions|
  {
    hide Counted, Step, Calm;
    if actions != [] {
      CalmStepCounted(cfg, s, actions[0]);
      CalmRunCounted(cfg, Step(cfg, s, actions[0]), actions[1..]);
    }
  }

  /**
   In every run without rewinds and failed publishes: a dead letter's attempt
   header is the number of times its handler ran; that is the budget plus one
   for a message that never saw the retry tier and the budget plus two for one
   that did; and no message sees the retry tier twice.
   */
  lemma DeadLettersCountExactly(cfg: Config, s: State, actions: seq<Action>, offset: nat)
    requires Initial(s) && forall i :: 0 <= i < |actions| ==> Calm(actions[i])
    requires offset < |Run(cfg, s, actions).dlq.log|
    ensures var r := Run(cfg, s, actions);
            var m := r.dlq.log[offset];
            && Tally(r.history.runs, m.uid) == ParseAttempt(m) == cfg.inFlightAttempts + 1 + Tally(r.history.visits, m.uid)
            && Tally(r.history.visits, m.uid) <= 1
  {
    InitialOk(s);
    CalmRunCounted(cfg, s, actions);
    var r := Run(cfg, s, actions);
    assert LiveCopy(r, OnDlq(offset), r.dlq.log[offset].uid);
  }

  /** No message is run more than budget plus two times or visits the retry tier twice, whether it ends well or not. */
  lemma RunsAreBounded(cfg: Config, s: State, actions: seq<Action>, uid: nat)
    requires Initial(s) && forall i :: 0 <= i < |actions| ==> Calm(actions[i])
    ensures Tally(Run(cfg, s, actions).history.runs, uid) <= cfg.inFlightAttempts + 2
    ensures Tally(Run(cfg, s, actions).history.visits, uid) <= 1
  {
    InitialOk(s);
    CalmRunCounted(cfg, s, actions);
  }

  /** A first escalation goes to the retry tier exactly when its last error is transient; a second one never does. */
  lemma TierByLastError(cfg: Config, s: State, tp: Tp, outcome: Outcome, now: nat)
    requires Counted(cfg, s) && tp in s.lanes && s.lanes[tp].Pending() && ContextAt(s, tp).message.value.Some?
    requires Decide(s.inflight, cfg, ContextAt(s, tp), outcome, now).verdict.Escalate?
    ensures outcome.Failure?
    ensures Decide(s.inflight, cfg, ContextAt(s, tp), outcome, now).verdict.tier.RetryTier?
            <==> outcome.kind.Transient? && Tally(s.history.visits, ContextAt(s, tp).message.uid) == 0
  {
    assert LiveCopy(s, OnMain(tp, s.lanes[tp].pos), ContextAt(s, tp).message.uid);
    assert Exact(cfg, s, OnMain(tp, s.lanes[tp].pos));
  }
}
