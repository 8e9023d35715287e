/**
 A measure that every delivery step lowers: with finitely many rewinds and
 failed publishes the pipeline comes to rest, and at rest nothing is pending.
 */
module Drain {
  import opened Wrappers
  import opened Sums
  import opened RetryPolicy
  import opened Delivery
  import opened NoLoss
  import opened Attempts

  /** Steps a message on a main topic can still cause: runs of this stay, a mirror step, a pass through the retry tier. */
  function MainWeight(cfg: Config, m: Msg, mem: nat): nat {
    if m.value.None? then 1
    else Max0(cfg.inFlightAttempts - ParseAttempt(m) - mem) + 2 + if ParseAttempt(m) == 0 then 2 else 0
  }

  function RetryWeight(cfg: Config, m: Msg): nat {
    match Bounced(m) {
      case None => 1
      case Some((_, back)) => 1 + MainWeight(cfg, back, 0)
    }
  }

  function PlaceCount(cfg: Config, inflight: Inflight, tp: Tp, offset: nat): nat {
    Count(inflight, AttemptKey(cfg.worker, tp.topic, tp.partition, offset))
  }

  /** Weight of the unconsumed messages from offset o on. */
  function TailWeight(cfg: Config, inflight: Inflight, tp: Tp, log: seq<Msg>, o: nat): nat
    decreases |log| - o
  {
    if o >= |log| then 0
    else MainWeight(cfg, log[o], PlaceCount(cfg, inflight, tp, o)) + TailWeight(cfg, inflight, tp, log, o + 1)
  }

  function RetryTail(cfg: Config, log: seq<Msg>, o: nat): nat
    decreases |log| - o
  {
    if o >= |log| then 0 else RetryWeight(cfg, log[o]) + RetryTail(cfg, log, o + 1)
  }

  function LaneWeights(cfg: Config, s: State): map<Tp, int> {
    map tp | tp in s.lanes :: TailWeight(cfg, s.inflight, tp, s.lanes[tp].log, s.lanes[tp].pos)
  }

  ghost function Measure(cfg: Config, s: State): int {
    MapSum(LaneWeights(cfg, s)) + RetryTail(cfg, s.retry.log, s.retry.pos) + Max0(|s.dlq.log| - s.dlq.pos)
  }

  // ------------------------------------------------------------- sums of tails

  lemma {:induction false} TailPut(cfg: Config, inflight: Inflight, tp: Tp, log: seq<Msg>, o: nat, m: Msg)
    requires o <= |log|
    ensures TailWeight(cfg, inflight, tp, log + [m], o)
            == TailWeight(cfg, inflight, tp, log, o) + MainWeight(cfg, m, PlaceCount(cfg, inflight, tp, |log|))
    decreases |log| - o
  {
    if o < |log| {
      TailPut(cfg, inflight, tp, log, o + 1, m);
    } else {
      assert TailWeight(cfg, inflight, tp, log + [m], o + 1) == 0;
    }
  }

  lemma {:induction false} RetryTailPut(cfg: Config, log: seq<Msg>, o: nat, m: Msg)
    requires o <= |log|
    ensures RetryTail(cfg, log + [m], o) == RetryTail(cfg, log, o) + RetryWeight(cfg, m)
    decreases |log| - o
  {
    if o < |log| {
      RetryTailPut(cfg, log, o + 1, m);
    } else {
      assert RetryTail(cfg, log + [m], o + 1) == 0;
    }
  }

  /** Only the counts at and after o matter. */
  lemma {:induction false} TailSameCounts(cfg: Config, a: Inflight, b: Inflight, tp: Tp, log: seq<Msg>, o: nat)
    requires forall i :: o <= i ==> PlaceCount(cfg, a, tp, i) == PlaceCount(cfg, b, tp, i)
    ensures TailWeight(cfg, a, tp, log, o) == TailWeight(cfg, b, tp, log, o)
    decreases |log| - o
  {
    if o < |log| {
      assert PlaceCount(cfg, a, tp, o) == PlaceCount(cfg, b, tp, o);
      TailSameCounts(cfg, a, b, tp, log, o + 1);
    }
  }

  /** Changing one lane moves the sum by that lane's change, if the other lanes' counts stay. */
  lemma OneLaneMoves(cfg: Config, s: State, s1: State, tp: Tp)
    requires tp in s.lanes && tp in s1.lanes && s1.lanes == s.lanes[tp := s1.lanes[tp]]
    requires forall t, i :: t != tp ==> PlaceCount(cfg, s1.inflight, t, i) == PlaceCount(cfg, s.inflight, t, i)
    ensures MapSum(LaneWeights(cfg, s1)) == MapSum(LaneWeights(cfg, s))
              - TailWeight(cfg, s.inflight, tp, s.lanes[tp].log, s.lanes[tp].pos)
              + TailWeight(cfg, s1.inflight, tp, s1.lanes[tp].log, s1.lanes[tp].pos)
  {
    hide MainWeight, TailWeight, PlaceCount;
    var w := LaneWeights(cfg, s);
    var x := TailWeight(cfg, s1.inflight, tp, s1.lanes[tp].log, s1.lanes[tp].pos);
    MapSumUpdate(w, tp, x);
    assert LaneWeights(cfg, s1) == w[tp := x] by {
      forall t | t in s.lanes ensures LaneWeights(cfg, s1)[t] == w[tp := x][t] {
        if t != tp {
          TailSameCounts(cfg, s1.inflight, s.inflight, t, s.lanes[t].log, s.lanes[t].pos);
        }
      }
    }
  }

  lemma WeightsNonNegative(cfg: Config, s: State)
    ensures MapSum(LaneWeights(cfg, s)) >= 0
  {
    assert NonNegative(LaneWeights(cfg, s));
    MapSumNonNegative(LaneWeights(cfg, s));
  }

  // ------------------------------------------------------------------- steps

  /** A delivery step that does something and is not disturbed. */
  predicate Works(s: State, a: Action) {
    match a
    case HandleNext(tp, _, _, sent) => tp in s.lanes && s.lanes[tp].Pending() && sent.Acked?
    case BounceNext(partition, sent) =>
      && s.retry.Pending() && sent.Acked?
      && (var b := Bounced(s.retry.log[s.retry.pos]); b.Some? ==> Tp(b.value.0, partition) in s.lanes)
    case MirrorNext(_) => s.dlq.Pending()
    case Produce(_, _, _, _) => false
    case CommitTo(_, _) => false
    case Rebalance(_) => false
    case RestartConsumers => false
    case CommitRetry(_) => false
    case RestartRetry => false
    case CommitDlq(_) => false
    case RestartMonitor => false
    case BeginRequest(_, _) => false
    case SendRow(_, _, _) => false
    case MarkDone(_, _) => false
    case Abandon(_) => false
  }

  /** The weight at the head of a lane, and what one run of the handler makes of it. */
  ghost predicate HeadLowered(cfg: Config, inflight: Inflight, ctx: Context, outcome: Outcome, now: nat) {
    var d := Decide(inflight, cfg, ctx, outcome, now);
    var before := MainWeight(cfg, ctx.message, Count(inflight, KeyOf(cfg, ctx)));
    match d.verdict
    case Done => true
    case Again => MainWeight(cfg, ctx.message, Count(d.inflight, KeyOf(cfg, ctx))) < before
    case Escalate(tier, copy) => (if tier.RetryTier? then RetryWeight(cfg, copy) else 1) < before
  }

  /** The copy on the retry topic weighs at most three: its attempt header has used up the budget. */
  lemma CopyWeighs(cfg: Config, ctx: Context, total: nat, error: string, tier: Tier, now: nat)
    requires total >= cfg.inFlightAttempts
    ensures RetryWeight(cfg, Copy(cfg, ctx, total, error, tier, now)) <= 3
  {
    hide CopyHeaders;
    var copy := Copy(cfg, ctx, total, error, tier, now);
    CopyCarriesOn(cfg, ctx, total, error, tier, now);
    OnWireReads(CopyHeaders(cfg, ctx, total, error, tier, now), ATTEMPT);
    if Bounced(copy).Some? {
      assert Bounced(copy).value.1.headers == copy.headers;
    }
  }

  lemma HeadLowers(cfg: Config, inflight: Inflight, ctx: Context, outcome: Outcome, now: nat)
    requires ctx.message.value.Some?
    ensures HeadLowered(cfg, inflight, ctx, outcome, now)
  {
    hide RetryWeight, Copy, ParseAttempt;
    var d := Decide(inflight, cfg, ctx, outcome, now);
    if d.verdict.Escalate? {
      var total := Count(inflight, KeyOf(cfg, ctx)) + ParseAttempt(ctx.message);
      CopyWeighs(cfg, ctx, total, outcome.text, d.verdict.tier, now);
    }
  }

  lemma MapsBack(s: State, tp: Tp)
    requires tp in s.lanes
    ensures s.lanes == s.lanes[tp := s.lanes[tp]]
  {
  }

  /** An acknowledged delivery, topic by topic. */
  lemma HandleShape(cfg: Config, s: State, tp: Tp, outcome: Outcome, now: nat)
    requires tp in s.lanes && s.lanes[tp].Pending()
    ensures var s1 := Handle(cfg, s, tp, outcome, now, Acked);
            var ctx := ContextAt(s, tp);
            var d := if ctx.message.value.None? then Decision(s.inflight, Done) else Decide(s.inflight, cfg, ctx, outcome, now);
            && s1.inflight == d.inflight
            && s1.lanes == (if d.verdict.Again? then s.lanes else s.lanes[tp := s.lanes[tp].Advance()])
            && s1.retry == (if d.verdict.Escalate? && d.verdict.tier.RetryTier? then s.retry.Put(d.verdict.copy) else s.retry)
            && s1.dlq == (if d.verdict.Escalate? && d.verdict.tier.DeadLetter? then s.dlq.Put(d.verdict.copy) else s.dlq)
  {
    hide Decide, Tally;
  }

  lemma HandleLowers(cfg: Config, s: State, tp: Tp, outcome: Outcome, now: nat)
    requires tp in s.lanes && s.lanes[tp].Pending() && s.retry.pos <= |s.retry.log|
    ensures Measure(cfg, Handle(cfg, s, tp, outcome, now, Acked)) < Measure(cfg, s)
  {
    hide MainWeight, RetryWeight, Handle, Decide, LaneWeights;
    HandleShape(cfg, s, tp, outcome, now);
    var ctx := ContextAt(s, tp);
    var s1 := Handle(cfg, s, tp, outcome, now, Acked);
    var o := s.lanes[tp].pos;
    var log := s.lanes[tp].log;
    MapsBack(s, tp);
    forall t, i | t != tp || i != o ensures PlaceCount(cfg, s1.inflight, t, i) == PlaceCount(cfg, s.inflight, t, i) {
      if ctx.message.value.Some? {
        OtherCountsKept(s.inflight, cfg, ctx, outcome, now, AttemptKey(cfg.worker, t.topic, t.partition, i));
      }
    }
    OneLaneMoves(cfg, s, s1, tp);
    TailSameCounts(cfg, s1.inflight, s.inflight, tp, log, o + 1);
    SkipWeight(cfg, ctx.message, PlaceCount(cfg, s.inflight, tp, o));
    if ctx.message.value.Some? {
      HeadLowers(cfg, s.inflight, ctx, outcome, now);
      var d := Decide(s.inflight, cfg, ctx, outcome, now);
      if d.verdict.Escalate? && d.verdict.tier.RetryTier? {
        RetryTailPut(cfg, s.retry.log, s.retry.pos, d.verdict.copy);
      }
    }
  }

  lemma SkipWeight(cfg: Config, m: Msg, mem: nat)
    ensures MainWeight(cfg, m, mem) > 0
  {
  }

  lemma BounceLowers(cfg: Config, s: State, partition: nat)
    requires s.retry.Pending() && Works(s, BounceNext(partition, Acked))
    requires forall tp :: tp in s.lanes ==> s.lanes[tp].pos <= |s.lanes[tp].log|
    requires forall tp, o :: tp in s.lanes && o >= |s.lanes[tp].log| ==> PlaceCount(cfg, s.inflight, tp, o) == 0
    ensures Measure(cfg, Bounce(s, partition, Acked)) < Measure(cfg, s)
  {
    hide MainWeight;
    var m := s.retry.log[s.retry.pos];
    var s1 := Bounce(s, partition, Acked);
    match Bounced(m) {
      case None => assert LaneWeights(cfg, s1) == LaneWeights(cfg, s);
      case Some((topic, back)) =>
        var tp := Tp(topic, partition);
        OneLaneMoves(cfg, s, s1, tp);
        TailPut(cfg, s.inflight, tp, s.lanes[tp].log, s.lanes[tp].pos, back);
    }
  }

  /** Positions are within their logs and counts belong to messages that exist. */
  ghost predicate Sound(cfg: Config, s: State) {
    && (forall tp :: tp in s.lanes ==> s.lanes[tp].committed <= s.lanes[tp].pos <= |s.lanes[tp].log|)
    && s.retry.committed <= s.retry.pos <= |s.retry.log| && s.dlq.committed <= s.dlq.pos <= |s.dlq.log|
    && (forall tp, o :: tp in s.lanes && o >= |s.lanes[tp].log| ==> PlaceCount(cfg, s.inflight, tp, o) == 0)
  }

  lemma RanLeaves(s: State, inflight: Inflight, uid: nat, outcome: Outcome)
    ensures Ran(s, inflight, uid, outcome).lanes == s.lanes && Ran(s, inflight, uid, outcome).inflight == inflight
  {
  }

  lemma PublishLeaves(s: State, tier: Tier, m: Msg)
    ensures Publish(s, tier, m).lanes == s.lanes && Publish(s, tier, m).inflight == s.inflight
  {
  }

  /** Delivering moves one position by at most one and counts the run. */
  lemma HandleMoves(cfg: Config, s: State, tp: Tp, outcome: Outcome, now: nat, sent: Send)
    requires tp in s.lanes && s.lanes[tp].Pending()
    ensures var s1 := Handle(cfg, s, tp, outcome, now, sent);
            && (s1.lanes == s.lanes || s1.lanes == s.lanes[tp := s.lanes[tp].Advance()])
            && s1.inflight == if ContextAt(s, tp).message.value.None? then s.inflight
                              else Decide(s.inflight, cfg, ContextAt(s, tp), outcome, now).inflight
  {
    hide Decide, Ran, Publish;
    var ctx := ContextAt(s, tp);
    if ctx.message.value.Some? {
      var d := Decide(s.inflight, cfg, ctx, outcome, now);
      var s1 := Ran(s, d.inflight, ctx.message.uid, outcome);
      RanLeaves(s, d.inflight, ctx.message.uid, outcome);
      if d.verdict.Escalate? {
        PublishLeaves(s1, d.verdict.tier, d.verdict.copy);
      }
    }
  }

  /** And it only appends to the escalation topics. */
  lemma HandleAppends(cfg: Config, s: State, tp: Tp, outcome: Outcome, now: nat, sent: Send)
    requires tp in s.lanes && s.lanes[tp].Pending()
    ensures var s1 := Handle(cfg, s, tp, outcome, now, sent);
            && s1.retry.pos == s.retry.pos && s1.retry.committed == s.retry.committed && |s1.retry.log| >= |s.retry.log|
            && s1.dlq.pos == s.dlq.pos && s1.dlq.committed == s.dlq.committed && |s1.dlq.log| >= |s.dlq.log|
  {
    hide Decide, Tally, ContextAt;
  }

  lemma HandleSound(cfg: Config, s: State, tp: Tp, outcome: Outcome, now: nat, sent: Send)
    requires Sound(cfg, s) && tp in s.lanes && s.lanes[tp].Pending()
    ensures Sound(cfg, Handle(cfg, s, tp, outcome, now, sent))
  {
    hide Handle, Decide, Count;
    HandleMoves(cfg, s, tp, outcome, now, sent);
    HandleAppends(cfg, s, tp, outcome, now, sent);
    var s1 := Handle(cfg, s, tp, outcome, now, sent);
    var ctx := ContextAt(s, tp);
    forall t, o | t in s1.lanes && o >= |s1.lanes[t].log| ensures PlaceCount(cfg, s1.inflight, t, o) == 0 {
      assert t in s.lanes && o >= |s.lanes[t].log|;
      if ctx.message.value.Some? {
        OtherCountsKept(s.inflight, cfg, ctx, outcome, now, AttemptKey(cfg.worker, t.topic, t.partition, o));
      }
      assert PlaceCount(cfg, s.inflight, t, o) == 0;
    }
  }

  lemma EnterSound(cfg: Config, s: State, tp: Tp, key: Option<string>, value: Option<string>, headers: Headers)
    requires Sound(cfg, s) && tp in s.lanes
    ensures Sound(cfg, Enter(s, tp, key, value, headers))
  {
  }

  lemma AdminOnlySound(cfg: Config, s: State, rows: seq<Row>, requests: map<nat, Request>)
    requires Sound(cfg, s)
    ensures Sound(cfg, s.(rows := rows, requests := requests))
  {
  }

  lemma AdminSound(cfg: Config, s: State, a: Action)
    requires Sound(cfg, s) && AdminOnly(a)
    ensures Sound(cfg, Step(cfg, s, a))
  {
    hide Sound, Step;
    AdminStep(cfg, s, a);
    AdminOnlySound(cfg, s, Step(cfg, s, a).rows, Step(cfg, s, a).requests);
  }

  lemma SendReplaySound(cfg: Config, s: State, q: nat, partition: nat, sent: Send)
    requires Sound(cfg, s)
    ensures Sound(cfg, SendReplay(s, q, partition, sent))
  {
    hide Sound, Enter, ReplayKey, ReplayHeaders;
    AdminOnlySound(cfg, s, s.rows, s.requests - {q});
    if q in s.requests && s.requests[q].ReplayRead? && s.requests[q].id < |s.rows| {
      var id := s.requests[q].id;
      var row := s.rows[id];
      var tp := Tp(row.originalTopic, partition);
      if tp in s.lanes {
        EnterSound(cfg, s, tp, Some(ReplayKey(row)), Some(row.payload), OnWire(ReplayHeaders(id, row)));
        var s1 := Enter(s, tp, Some(ReplayKey(row)), Some(row.payload), OnWire(ReplayHeaders(id, row)));
        AdminOnlySound(cfg, s1, s1.rows, s1.requests[q := ReplaySent(id)]);
        AdminOnlySound(cfg, s1, s1.rows, s1.requests - {q});
      }
    }
  }

  lemma BounceSound(cfg: Config, s: State, partition: nat, sent: Send)
    requires Sound(cfg, s) && s.retry.Pending()
    ensures Sound(cfg, Bounce(s, partition, sent))
  {
  }

  lemma MonitorSound(cfg: Config, s: State, a: Action)
    requires Sound(cfg, s) && (a.MirrorNext? || a.CommitDlq? || a.RestartMonitor? || a.CommitRetry? || a.RestartRetry?)
    ensures Sound(cfg, Step(cfg, s, a))
  {
  }

  lemma OffsetsSound(cfg: Config, s: State, a: Action)
    requires Sound(cfg, s) && (a.CommitTo? || a.Rebalance?)
    ensures Sound(cfg, Step(cfg, s, a))
  {
  }

  lemma SoundKept(cfg: Config, s: State, a: Action)
    requires Sound(cfg, s)
    ensures Sound(cfg, Step(cfg, s, a))
  {
    hide Sound, Mirror, Handle, Bounce, Enter, SendReplay, MarkRow, Begin;
    match a {
      case Produce(tp, key, value, headers) => if tp in s.lanes { EnterSound(cfg, s, tp, key, value, headers); }
      case HandleNext(tp, outcome, now, sent) =>
        if tp in s.lanes && s.lanes[tp].Pending() { HandleSound(cfg, s, tp, outcome, now, sent); }
      case SendRow(q, partition, sent) => SendReplaySound(cfg, s, q, partition, sent);
      case BeginRequest(q, r) => AdminSound(cfg, s, a);
      case MarkDone(q, ok) => AdminSound(cfg, s, a);
      case Abandon(q) => AdminSound(cfg, s, a);
      case BounceNext(partition, sent) => if s.retry.Pending() { BounceSound(cfg, s, partition, sent); }
      case RestartConsumers => RewoundSound(cfg, s);
      case CommitTo(tp, offset) => OffsetsSound(cfg, s, a);
      case Rebalance(tp) => OffsetsSound(cfg, s, a);
      case CommitRetry(offset) => MonitorSound(cfg, s, a);
      case RestartRetry => MonitorSound(cfg, s, a);
      case MirrorNext(stored) => MonitorSound(cfg, s, a);
      case CommitDlq(offset) => MonitorSound(cfg, s, a);
      case RestartMonitor => MonitorSound(cfg, s, a);
    }
  }

  lemma RewoundSound(cfg: Config, s: State)
    requires Sound(cfg, s)
    ensures Sound(cfg, Step(cfg, s, RestartConsumers))
  {
  }

  lemma {:induction false} SoundRun(cfg: Config, s: State, actions: seq<Action>)
    requires Sound(cfg, s)
    ensures Sound(cfg, Run(cfg, s, actions))
    decreases |actions|
  {
    hide Sound, Step;
    if actions != [] {
      SoundKept(cfg, s, actions[0]);
      SoundRun(cfg, Step(cfg, s, actions[0]), actions[1..]);
    }
  }

  lemma WorkLowers(cfg: Config, s: State, a: Action)
    requires Sound(cfg, s) && Works(s, a)
    ensures 0 <= Measure(cfg, Step(cfg, s, a)) < Measure(cfg, s)
  {
    hide Handle, Bounce, Mirrored, LaneWeights;
    WeightsNonNegative(cfg, Step(cfg, s, a));
    match a {
      case HandleNext(tp, outcome, now, sent) => HandleLowers(cfg, s, tp, outcome, now);
      case BounceNext(partition, sent) => BounceLowers(cfg, s, partition);
      case MirrorNext(stored) => MirrorLowers(cfg, s, stored);
    }
  }

  lemma MirrorLowers(cfg: Config, s: State, stored: bool)
    requires s.dlq.Pending()
    ensures Measure(cfg, Mirror(s, stored)) < Measure(cfg, s)
  {
  }

  /** Committing an offset is no work and disturbs nothing. */
  predicate CommitsOffset(a: Action) {
    a.CommitTo? || a.CommitRetry? || a.CommitDlq?
  }

  /** Delivery steps with offset commits anywhere between them. */
  ghost predicate AllWork(cfg: Config, s: State, actions: seq<Action>)
    decreases |actions|
  {
    actions == [] || ((Works(s, actions[0]) || CommitsOffset(actions[0])) && AllWork(cfg, Step(cfg, s, actions[0]), actions[1..]))
  }

  function WorkCount(actions: seq<Action>): nat {
    if actions == [] then 0 else (if CommitsOffset(actions[0]) then 0 else 1) + WorkCount(actions[1..])
  }

  lemma CommitKeepsMeasure(cfg: Config, s: State, a: Action)
    requires CommitsOffset(a)
    ensures Measure(cfg, Step(cfg, s, a)) == Measure(cfg, s)
  {
    hide TailWeight, RetryTail;
    assert LaneWeights(cfg, Step(cfg, s, a)) == LaneWeights(cfg, s);
  }

  /**
   After any run, however disturbed, the undisturbed steps that can follow are
   bounded by the measure: only a rewind, a failed publish or a new message can
   keep the pipeline going.
   */
  lemma {:induction false} WorkIsBounded(cfg: Config, s: State, work: seq<Action>)
    requires Sound(cfg, s) && AllWork(cfg, s, work)
    ensures WorkCount(work) <= Measure(cfg, s)
    decreases |work|
  {
    hide Works, Step, Sound;
    if work == [] {
      WeightsNonNegative(cfg, s);
    } else {
      SoundKept(cfg, s, work[0]);
      WorkIsBounded(cfg, Step(cfg, s, work[0]), work[1..]);
      if CommitsOffset(work[0]) {
        CommitKeepsMeasure(cfg, s, work[0]);
      } else {
        WorkLowers(cfg, s, work[0]);
      }
    }
  }

  lemma PipelineComesToRest(cfg: Config, s: State, disturbed: seq<Action>, work: seq<Action>)
    requires Initial(s) && AllWork(cfg, Run(cfg, s, disturbed), work)
    ensures WorkCount(work) <= Measure(cfg, Run(cfg, s, disturbed))
  {
    SoundRun(cfg, s, disturbed);
    WorkIsBounded(cfg, Run(cfg, s, disturbed), work);
  }

  ghost predicate AtRest(s: State) {
    && (forall tp :: tp in s.lanes ==> !s.lanes[tp].Pending())
    && !s.retry.Pending() && !s.dlq.Pending()
  }

  /** The measure is zero exactly when nothing is pending anywhere. */
  lemma RestIsZero(cfg: Config, s: State)
    ensures Measure(cfg, s) == 0 <==> AtRest(s)
  {
    WeightsNonNegative(cfg, s);
    forall tp | tp in s.lanes ensures LaneWeights(cfg, s)[tp] >= 0 && (LaneWeights(cfg, s)[tp] == 0 <==> !s.lanes[tp].Pending()) {
      if s.lanes[tp].Pending() {
        SkipWeight(cfg, s.lanes[tp].log[s.lanes[tp].pos], PlaceCount(cfg, s.inflight, tp, s.lanes[tp].pos));
      }
    }
    if AtRest(s) {
      MapSumZero(LaneWeights(cfg, s));
    }
    forall tp | tp in s.lanes && s.lanes[tp].Pending() ensures MapSum(LaneWeights(cfg, s)) > 0 {
      MapSumAtLeast(LaneWeights(cfg, s), tp);
    }
  }

  /** While anything is pending some undisturbed step is possible, as long as a bounced message's topic has a partition. */
  lemma PendingWorks(s: State) returns (a: Action)
    requires !AtRest(s)
    requires s.retry.Pending() && Bounced(s.retry.log[s.retry.pos]).Some? ==>
               exists partition :: Tp(Bounced(s.retry.log[s.retry.pos]).value.0, partition) in s.lanes
    ensures Works(s, a)
  {
    if s.retry.Pending() {
      if Bounced(s.retry.log[s.retry.pos]).Some? {
        var partition :| Tp(Bounced(s.retry.log[s.retry.pos]).value.0, partition) in s.lanes;
        a := BounceNext(partition, Acked);
      } else {
        a := BounceNext(0, Acked);
      }
    } else if s.dlq.Pending() {
      a := MirrorNext(true);
    } else {
      var tp :| tp in s.lanes && s.lanes[tp].Pending();
      a := HandleNext(tp, Success, 0, Acked);
    }
  }

  /**
   The whole story of a message without disturbances: once the pipeline has come
   to rest, a message that never succeeded lies on the dead-letter topic, and its
   attempt header and the number of its runs are the budget plus one, plus one
   more if it saw the retry tier.
   */
  lemma FailedMessagesAreDead(cfg: Config, s: State, actions: seq<Action>, uid: nat) returns (offset: nat)
    requires Initial(s) && forall i :: 0 <= i < |actions| ==> Calm(actions[i])
    requires var r := Run(cfg, s, actions);
             && AtRest(r) && uid < |r.history.origin| && r.history.origin[uid].value.Some? && uid !in r.history.succeeded
    ensures var r := Run(cfg, s, actions);
            && offset < |r.dlq.log| && r.dlq.log[offset].uid == uid
            && Tally(r.history.runs, uid) == ParseAttempt(r.dlq.log[offset]) == cfg.inFlightAttempts + 1 + Tally(r.history.visits, uid)
            && Tally(r.history.visits, uid) <= 1
  {
    hide Run, Calm;
    NothingIsLost(cfg, s, actions, uid);
    var r := Run(cfg, s, actions);
    var p :| LiveCopy(r, p, uid) && Genuine(r, p);
    offset := p.offset;
    DeadLettersCountExactly(cfg, s, actions, offset);
  }

  // ------------------------------------------- how errors decide the last attempt

  /** This step runs the handler of the message and hands it on. */
  predicate HandsOn(cfg: Config, s: State, a: Action, uid: nat) {
    && a.HandleNext? && a.tp in s.lanes && s.lanes[a.tp].Pending()
    && ContextAt(s, a.tp).message.uid == uid && ContextAt(s, a.tp).message.value.Some?
    && Decide(s.inflight, cfg, ContextAt(s, a.tp), a.outcome, a.now).verdict.Escalate?
  }

  /** Whenever the message is handed on, the error of that run has this kind. */
  ghost predicate HandedOnAs(cfg: Config, s: State, actions: seq<Action>, uid: nat, kind: ErrorKind)
    decreases |actions|
  {
    actions == []
    || ((HandsOn(cfg, s, actions[0], uid) ==> actions[0].outcome == Failure(kind, actions[0].outcome.text))
        && HandedOnAs(cfg, Step(cfg, s, actions[0]), actions[1..], uid, kind))
  }

  ghost predicate OnDeadLetters(s: State, uid: nat) {
    exists o :: 0 <= o < |s.dlq.log| && s.dlq.log[o].uid == uid
  }

  /** Visits to the retry tier, and dead letters, come only from being handed on. */
  lemma HandleHandsOn(cfg: Config, s: State, tp: Tp, outcome: Outcome, now: nat, sent: Send, uid: nat)
    requires tp in s.lanes && s.lanes[tp].Pending()
    ensures var s1 := Handle(cfg, s, tp, outcome, now, sent);
            var d := Decide(s.inflight, cfg, ContextAt(s, tp), outcome, now);
            if HandsOn(cfg, s, HandleNext(tp, outcome, now, sent), uid) && !sent.Lost? then
              && Tally(s1.history.visits, uid) == Tally(s.history.visits, uid) + (if d.verdict.tier.RetryTier? then 1 else 0)
              && (OnDeadLetters(s1, uid) <==> OnDeadLetters(s, uid) || d.verdict.tier.DeadLetter?)
            else
              Tally(s1.history.visits, uid) == Tally(s.history.visits, uid) && (OnDeadLetters(s1, uid) <==> OnDeadLetters(s, uid))
  {
    hide CopyHeaders, ParseAttempt, Count, Target;
    var ctx := ContextAt(s, tp);
    var d := Decide(s.inflight, cfg, ctx, outcome, now);
    var s1 := Handle(cfg, s, tp, outcome, now, sent);
    if ctx.message.value.Some? && d.verdict.Escalate? && d.verdict.tier.DeadLetter? && !sent.Lost? {
      assert s1.dlq.log == s.dlq.log + [d.verdict.copy] && d.verdict.copy.uid == ctx.message.uid;
      assert s1.dlq.log[|s.dlq.log|].uid == ctx.message.uid;
      assert forall o :: 0 <= o < |s.dlq.log| ==> s1.dlq.log[o] == s.dlq.log[o];
    }
  }

  lemma OthersHandOnNothing(cfg: Config, s: State, a: Action, uid: nat)
    requires !a.HandleNext?
    ensures Step(cfg, s, a).history.visits == s.history.visits && Step(cfg, s, a).dlq.log == s.dlq.log
  {
    hide Handle, Bounced, Mirrored, ReplayHeaders, ReplayKey;
  }

  /** A permanent error never takes the message to the retry tier; a transient one never kills it before it has been there. */
  ghost predicate SortedBy(s: State, uid: nat, kind: ErrorKind) {
    if kind.Permanent? then Tally(s.history.visits, uid) == 0
    else OnDeadLetters(s, uid) ==> Tally(s.history.visits, uid) == 1
  }

  lemma StepSorted(cfg: Config, s: State, a: Action, uid: nat, kind: ErrorKind)
    requires Counted(cfg, s) && SortedBy(s, uid, kind)
    requires HandsOn(cfg, s, a, uid) ==> a.outcome == Failure(kind, a.outcome.text)
    ensures Counted(cfg, Step(cfg, s, a)) ==> SortedBy(Step(cfg, s, a), uid, kind)
  {
    hide Counted, Handle, OnDeadLetters, Decide;
    if !a.HandleNext? {
      OthersHandOnNothing(cfg, s, a, uid);
      SameDeadLetters(s, Step(cfg, s, a), uid);
    } else if a.tp in s.lanes && s.lanes[a.tp].Pending() {
      HandleHandsOn(cfg, s, a.tp, a.outcome, a.now, a.sent, uid);
      if HandsOn(cfg, s, a, uid) {
        TierByLastError(cfg, s, a.tp, a.outcome, a.now);
      }
      VisitsBounded(cfg, s, uid);
      if Counted(cfg, Step(cfg, s, a)) {
        VisitsBounded(cfg, Step(cfg, s, a), uid);
      }
    }
  }

  lemma SameDeadLetters(s: State, s1: State, uid: nat)
    requires s1.dlq.log == s.dlq.log
    ensures OnDeadLetters(s1, uid) == OnDeadLetters(s, uid)
  {
  }

  lemma VisitsBounded(cfg: Config, s: State, uid: nat)
    requires Counted(cfg, s)
    ensures Tally(s.history.visits, uid) <= 1
  {
  }

  lemma {:induction false} RunSorted(cfg: Config, s: State, actions: seq<Action>, uid: nat, kind: ErrorKind)
    requires Counted(cfg, s) && SortedBy(s, uid, kind) && forall i :: 0 <= i < |actions| ==> Calm(actions[i])
    requires HandedOnAs(cfg, s, actions, uid, kind)
    ensures SortedBy(Run(cfg, s, actions), uid, kind)
    decreases |actions|
  {
    hide Counted, SortedBy, Step, Calm, HandsOn;
    if actions != [] {
      CalmStepCounted(cfg, s, actions[0]);
      StepSorted(cfg, s, actions[0], uid, kind);
      RunSorted(cfg, Step(cfg, s, actions[0]), actions[1..], uid, kind);
    }
  }

  /**
   The promise of the policy: without disturbances, a message that never
   succeeds ends on the dead-letter topic at attempt budget + 1 if the errors it
   is handed on with are permanent, and at budget + 2 if they are transient, and
   that is how often its handler has run.
   */
  lemma LastAttemptByKind(cfg: Config, s: State, actions: seq<Action>, uid: nat, kind: ErrorKind) returns (offset: nat)
    requires Initial(s) && forall i :: 0 <= i < |actions| ==> Calm(actions[i])
    requires HandedOnAs(cfg, s, actions, uid, kind)
    requires var r := Run(cfg, s, actions);
             && AtRest(r) && uid < |r.history.origin| && r.history.origin[uid].value.Some? && uid !in r.history.succeeded
    ensures var r := Run(cfg, s, actions);
            && offset < |r.dlq.log| && r.dlq.log[offset].uid == uid
            && Tally(r.history.runs, uid) == ParseAttempt(r.dlq.log[offset]) == cfg.inFlightAttempts + if kind.Permanent? then 1 else 2
  {
    InitialCounted(cfg, s);
    hide Run, Calm, HandedOnAs, Counted;
    RunSorted(cfg, s, actions, uid, kind);
    offset := FailedMessagesAreDead(cfg, s, actions, uid);
  }

  lemma InitialCounted(cfg: Config, s: State)
    requires Initial(s)
    ensures Counted(cfg, s) && s.dlq.log == [] && forall uid :: Tally(s.history.visits, uid) == 0
  {
    InitialOk(s);
  }
}
