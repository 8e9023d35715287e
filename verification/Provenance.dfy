/**
 What the headers of a copy say: the place its last stay ended at, the worker,
 the attempt and the error; and that the mirrored row says the same.
 */
module Provenance {
  import opened Wrappers
  import opened Decimals
  import opened RetryPolicy
  import opened Delivery
  import opened NoLoss

  predicate HeaderIs(m: Msg, name: string, text: string) {
    name in m.headers && m.headers[name] == Bytes(text)
  }

  /** The first 997 characters and three dots where the error is longer than 1000. */
  predicate Shortened(text: string, error: string) {
    if |error| <= 1000 then text == error
    else |text| == 1000 && text[..997] == error[..997] && text[997..] == "..."
  }

  /** The copy that leaves a place, header by header. */
  lemma CopySays(cfg: Config, ctx: Context, total: nat, error: string, target: Tier, now: nat)
    ensures var c := Copy(cfg, ctx, total, error, target, now);
            && HeaderIs(c, "x-orbit-original-topic", ctx.topic)
            && HeaderIs(c, "x-orbit-original-partition", NatText(ctx.partition))
            && HeaderIs(c, "x-orbit-original-offset", NatText(ctx.offset))
            && HeaderIs(c, "x-orbit-attempt", NatText(total + 1))
            && HeaderIs(c, "x-orbit-worker", cfg.worker)
            && (target.RetryTier? ==> HeaderIs(c, "x-orbit-retry-after", NatText(now + cfg.retryDelayMs)))
            && (exists text :: HeaderIs(c, "x-orbit-last-error", text) && Shortened(text, error))
  {
    HeaderNamesDiffer();
    hide NatText, ParseAttempt;
    assert Shortened(Truncate(error, 1000), error);
    assert HeaderIs(Copy(cfg, ctx, total, error, target, now), "x-orbit-last-error", Truncate(error, 1000));
  }

  /** The copy was made from the message at this place, and its headers name the place. */
  predicate CameFrom(cfg: Config, s: State, m: Msg, tp: Tp, offset: nat) {
    && tp in s.lanes && offset < |s.lanes[tp].log|
    && s.lanes[tp].log[offset].uid == m.uid && s.lanes[tp].log[offset].value == m.value
    && HeaderIs(m, "x-orbit-original-topic", tp.topic)
    && HeaderIs(m, "x-orbit-original-partition", NatText(tp.partition))
    && HeaderIs(m, "x-orbit-original-offset", NatText(offset))
    && HeaderIs(m, "x-orbit-worker", cfg.worker)
    && "x-orbit-last-error" in m.headers && m.headers["x-orbit-last-error"].Bytes?
  }

  ghost predicate HasPlace(cfg: Config, s: State, m: Msg) {
    exists tp, offset :: CameFrom(cfg, s, m, tp, offset)
  }

  ghost predicate AllPlaced(cfg: Config, s: State) {
    && (forall i :: 0 <= i < |s.retry.log| ==> HasPlace(cfg, s, s.retry.log[i]))
    && (forall i :: 0 <= i < |s.dlq.log| ==> HasPlace(cfg, s, s.dlq.log[i]))
  }

  /** Lanes are only appended to. */
  ghost predicate LanesGrow(s: State, s1: State) {
    s1.lanes.Keys == s.lanes.Keys && forall tp :: tp in s.lanes ==> s.lanes[tp].log <= s1.lanes[tp].log
  }

  lemma PlaceStays(cfg: Config, s: State, s1: State, m: Msg)
    requires LanesGrow(s, s1) && HasPlace(cfg, s, m)
    ensures HasPlace(cfg, s1, m)
  {
    hide NatText;
    var tp, offset :| CameFrom(cfg, s, m, tp, offset);
    assert CameFrom(cfg, s1, m, tp, offset);
  }

  /** Lanes grow and the other two topics stay. */
  lemma QuietPlaced(cfg: Config, s: State, s1: State)
    requires AllPlaced(cfg, s) && LanesGrow(s, s1) && s1.retry.log == s.retry.log && s1.dlq.log == s.dlq.log
    ensures AllPlaced(cfg, s1)
  {
    hide HasPlace, LanesGrow;
    forall i | 0 <= i < |s.retry.log| ensures HasPlace(cfg, s1, s1.retry.log[i]) {
      PlaceStays(cfg, s, s1, s.retry.log[i]);
    }
    forall i | 0 <= i < |s.dlq.log| ensures HasPlace(cfg, s1, s1.dlq.log[i]) {
      PlaceStays(cfg, s, s1, s.dlq.log[i]);
    }
  }

  lemma PublishPlaced(cfg: Config, s: State, tier: Tier, m: Msg)
    requires AllPlaced(cfg, s) && HasPlace(cfg, s, m)
    ensures AllPlaced(cfg, Publish(s, tier, m))
  {
    hide HasPlace;
    var s1 := Publish(s, tier, m);
    assert LanesGrow(s, s1);
    PlaceStays(cfg, s, s1, m);
    forall i | 0 <= i < |s1.retry.log| ensures HasPlace(cfg, s1, s1.retry.log[i]) {
      if i < |s.retry.log| {
        PlaceStays(cfg, s, s1, s.retry.log[i]);
      }
    }
    forall i | 0 <= i < |s1.dlq.log| ensures HasPlace(cfg, s1, s1.dlq.log[i]) {
      if i < |s.dlq.log| {
        PlaceStays(cfg, s, s1, s.dlq.log[i]);
      }
    }
  }

  lemma CopyPlaced(cfg: Config, s: State, tp: Tp, total: nat, error: string, target: Tier, now: nat)
    requires tp in s.lanes && s.lanes[tp].Pending()
    ensures CameFrom(cfg, s, Copy(cfg, ContextAt(s, tp), total, error, target, now), tp, s.lanes[tp].pos)
  {
    CopySays(cfg, ContextAt(s, tp), total, error, target, now);
    hide CopyHeaders, NatText, Shortened;
  }

  lemma HandlePlaced(cfg: Config, s: State, tp: Tp, outcome: Outcome, now: nat, sent: Send)
    requires AllPlaced(cfg, s) && tp in s.lanes && s.lanes[tp].Pending()
    ensures AllPlaced(cfg, Handle(cfg, s, tp, outcome, now, sent))
  {
    hide AllPlaced, Publish, Copy, Target, ParseAttempt, Tally;
    var ctx := ContextAt(s, tp);
    QuietPlaced(cfg, s, AdvanceMain(s, tp));
    if ctx.message.value.Some? {
      var d := Decide(s.inflight, cfg, ctx, outcome, now);
      var s1 := Ran(s, d.inflight, ctx.message.uid, outcome);
      QuietPlaced(cfg, s, s1);
      QuietPlaced(cfg, s1, AdvanceMain(s1, tp));
      if d.verdict.Escalate? {
        EscalatedPlaced(cfg, s, s1, tp, outcome, now);
      }
    }
  }

  lemma EscalatedPlaced(cfg: Config, s: State, s1: State, tp: Tp, outcome: Outcome, now: nat)
    requires tp in s.lanes && s.lanes[tp].Pending() && AllPlaced(cfg, s1) && s1.lanes == s.lanes
    requires Decide(s.inflight, cfg, ContextAt(s, tp), outcome, now).verdict.Escalate?
    ensures var v := Decide(s.inflight, cfg, ContextAt(s, tp), outcome, now).verdict;
            var s2 := Publish(s1, v.tier, v.copy);
            AllPlaced(cfg, s2) && tp in s2.lanes && AllPlaced(cfg, AdvanceMain(s2, tp))
  {
    hide AllPlaced, Copy, ParseAttempt, Target, CameFrom;
    var ctx := ContextAt(s, tp);
    var v := Decide(s.inflight, cfg, ctx, outcome, now).verdict;
    var total := Count(s.inflight, KeyOf(cfg, ctx)) + ParseAttempt(ctx.message);
    CopyPlaced(cfg, s, tp, total, outcome.text, v.tier, now);
    SamePlace(cfg, s, s1, v.copy, tp, s.lanes[tp].pos);
    PublishPlaced(cfg, s1, v.tier, v.copy);
    var s2 := Publish(s1, v.tier, v.copy);
    QuietPlaced(cfg, s2, AdvanceMain(s2, tp));
  }

  lemma SamePlace(cfg: Config, s: State, s1: State, m: Msg, tp: Tp, offset: nat)
    requires CameFrom(cfg, s, m, tp, offset) && s1.lanes == s.lanes
    ensures HasPlace(cfg, s1, m)
  {
    assert CameFrom(cfg, s1, m, tp, offset);
  }

  lemma SendGrows(s: State, q: nat, partition: nat, sent: Send)
    ensures var s1 := SendReplay(s, q, partition, sent); LanesGrow(s, s1) && s1.retry.log == s.retry.log && s1.dlq.log == s.dlq.log
  {
    hide ReplayHeaders, ReplayKey;
  }

  lemma BounceGrows(s: State, partition: nat, sent: Send)
    requires s.retry.Pending()
    ensures var s1 := Bounce(s, partition, sent); LanesGrow(s, s1) && s1.retry.log == s.retry.log && s1.dlq.log == s.dlq.log
  {
    hide Bounced;
  }

  lemma StepPlaced(cfg: Config, s: State, a: Action)
    requires AllPlaced(cfg, s)
    ensures AllPlaced(cfg, Step(cfg, s, a))
  {
    hide AllPlaced, Handle, Bounce, SendReplay, Mirrored;
    if a.HandleNext? && a.tp in s.lanes && s.lanes[a.tp].Pending() {
      HandlePlaced(cfg, s, a.tp, a.outcome, a.now, a.sent);
    } else if a.BounceNext? && s.retry.Pending() {
      BounceGrows(s, a.partition, a.sent);
      QuietPlaced(cfg, s, Bounce(s, a.partition, a.sent));
    } else if a.SendRow? {
      SendGrows(s, a.request, a.partition, a.sent);
      QuietPlaced(cfg, s, SendReplay(s, a.request, a.partition, a.sent));
    } else {
      QuietPlaced(cfg, s, Step(cfg, s, a));
    }
  }

  lemma {:induction false} RunPlaced(cfg: Config, s: State, actions: seq<Action>)
    requires AllPlaced(cfg, s)
    ensures AllPlaced(cfg, Run(cfg, s, actions))
    decreases |actions|
  {
    hide AllPlaced, Step;
    if actions != [] {
      StepPlaced(cfg, s, actions[0]);
      RunPlaced(cfg, Step(cfg, s, actions[0]), actions[1..]);
    }
  }

  /** The mirrored row of a message that names its place. */
  lemma MirrorSays(cfg: Config, s: State, m: Msg, tp: Tp, offset: nat, at: nat)
    requires CameFrom(cfg, s, m, tp, offset) && Addressed(m, tp.topic) && m.value.Some?
    ensures var row := Mirrored(DLQ_TOPIC, 0, at, m);
            && row.Some? && row.value.payload == m.value.value && row.value.resolution.None?
            && row.value.originalTopic == tp.topic && row.value.originalPartition == tp.partition
            && row.value.originalOffset == NatText(offset) && row.value.worker == cfg.worker
            && HeaderIs(m, "x-orbit-last-error", row.value.lastError)
            && "x-orbit-attempt" in m.headers && Some(row.value.attempt) == ParseLeading(m.headers["x-orbit-attempt"].text)
  {
    ParseLeadingRoundTrip(tp.partition);
    hide ParseLeading, ParseNat, NatText;
  }

  /**
   In every reachable state a dead letter names the lane position its last stay
   ended at, where the same message lies, and the monitor's row for it carries
   that topic, partition and offset, the worker and the error.
   */
  lemma DeadLettersSayWhere(cfg: Config, s: State, actions: seq<Action>, at: nat) returns (tp: Tp, offset: nat)
    requires Initial(s) && at < |Run(cfg, s, actions).dlq.log|
    ensures var r := Run(cfg, s, actions);
            var m := r.dlq.log[at];
            && CameFrom(cfg, r, m, tp, offset)
            && (m.value.Some? ==>
                  var row := Mirrored(DLQ_TOPIC, 0, at, m);
                  && row.Some? && row.value.payload == m.value.value
                  && row.value.originalTopic == tp.topic && row.value.originalPartition == tp.partition
                  && row.value.originalOffset == NatText(offset) && row.value.worker == cfg.worker
                  && HeaderIs(m, "x-orbit-last-error", row.value.lastError))
  {
    hide Run, DeliveryInv, CameFrom, Mirrored;
    InitialOk(s);
    RunKeeps(cfg, s, actions);
    RunPlaced(cfg, s, actions);
    var r := Run(cfg, s, actions);
    var m := r.dlq.log[at];
    assert HasPlace(cfg, r, m);
    tp, offset :| CameFrom(cfg, r, m, tp, offset);
    MessageGenuine(r, OnDlq(at));
    SameTopic(cfg, r, m, tp, offset, r.history.origin[m.uid].topic);
    if m.value.Some? {
      MirrorSays(cfg, r, m, tp, offset, at);
    }
  }

  lemma SameTopic(cfg: Config, s: State, m: Msg, tp: Tp, offset: nat, topic: string)
    requires CameFrom(cfg, s, m, tp, offset) && Addressed(m, topic)
    ensures tp.topic == topic
  {
  }

  // ------------------------------------------------------------- other headers

  /** The retry worker puts a message back on its topic with every textual header, key, value and identity. */
  lemma BouncedKeeps(m: Msg)
    ensures Bounced(m).Some? <==>
              && m.value.Some? && "x-orbit-original-topic" in m.headers
              && Textual(m.headers["x-orbit-original-topic"]) && m.headers["x-orbit-original-topic"].text != ""
    ensures Bounced(m).Some? ==>
            var (topic, back) := Bounced(m).value;
            && back.key == m.key && back.value == m.value && back.uid == m.uid
            && topic == m.headers["x-orbit-original-topic"].text
            && (forall name :: name in m.headers && Textual(m.headers[name]) ==> HeaderIs(back, name, m.headers[name].text))
            && (forall name :: name in back.headers ==> name in m.headers && Textual(m.headers[name]))
  {
  }

  /** A dead letter that nobody addressed is mirrored under the dead-letter topic itself, with the monitor's own place of it. */
  lemma UnaddressedMirrored(partition: nat, offset: nat, m: Msg)
    requires m.value.Some? && forall name :: name in m.headers ==> name !in POLICY_HEADERS && name != "x-orbit-replay-of"
    ensures Mirrored("orbit.dlq.v1", partition, offset, m)
            == Some(Row("orbit.dlq.v1", partition, NatText(offset), m.value.value, Materialize(m.headers), "unknown", "(no error header)",
                        0, None, None))
  {
    hide NatText;
  }

  /** A replay carries the trace context on, marks its row, and nothing else; its key is the original one if the row has it. */
  lemma ReplayCarries(id: nat, row: Row)
    ensures var h := ReplayHeaders(id, row);
            && "x-orbit-replay-of" in h && h["x-orbit-replay-of"] == NatText(id)
            && ("traceparent" in row.headers && row.headers["traceparent"] != "" <==> "traceparent" in h)
            && ("traceparent" in h ==> h["traceparent"] == row.headers["traceparent"])
            && (forall name :: name in h ==> name == "traceparent" || name == "x-orbit-replay-of")
    ensures ReplayKey(row) == if "x-orbit-original-key" in row.headers then row.headers["x-orbit-original-key"] else row.originalOffset
  {
    assert "traceparent"[0] != "x-orbit-replay-of"[0];
    hide NatText;
  }
}
