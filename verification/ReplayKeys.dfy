/** Which key an admin replay uses: the one header that could say otherwise is written by nobody. */
module ReplayKeys {
  import opened Wrappers
  import opened RetryPolicy
  import opened Delivery
  import opened NoLoss

  /** No producer writes the header. */
  predicate WritesNoKey(a: Action) {
    a.Produce? ==> ORIGINAL_KEY !in a.headers
  }

  ghost predicate Keyless(s: State) {
    && (forall p :: Exists(s, p) ==> ORIGINAL_KEY !in MsgOf(s, p).headers)
    && forall i :: 0 <= i < |s.rows| ==> ORIGINAL_KEY !in s.rows[i].headers
  }

  lemma KeyIsForeign()
    ensures ORIGINAL_KEY !in POLICY_HEADERS && ORIGINAL_KEY != REPLAY_OF && ORIGINAL_KEY != TRACEPARENT
  {
    assert ORIGINAL_KEY[0] == 'x' && TRACEPARENT[0] == 't';
    assert |ORIGINAL_KEY| == 20 && |ORIGINAL_TOPIC| == 22 && |ORIGINAL_PARTITION| == 26 && |ORIGINAL_OFFSET| == 23;
    assert |ATTEMPT| == 15 && |LAST_ERROR| == 18 && |WORKER| == 14 && |RETRY_AFTER| == 19 && |REPLAY_OF| == 17;
  }

  /** Same messages; rows with the same headers. */
  lemma SameKeyless(s: State, s1: State)
    requires Keyless(s) && s1.retry.log == s.retry.log && s1.dlq.log == s.dlq.log && s1.lanes.Keys == s.lanes.Keys
    requires forall tp :: tp in s.lanes ==> s1.lanes[tp].log == s.lanes[tp].log
    requires |s1.rows| == |s.rows| && forall i :: 0 <= i < |s.rows| ==> s1.rows[i].headers == s.rows[i].headers
    ensures Keyless(s1)
  {
    forall p | Exists(s1, p) ensures ORIGINAL_KEY !in MsgOf(s1, p).headers {
      assert Exists(s, p) && MsgOf(s1, p) == MsgOf(s, p);
    }
  }

  lemma CopyKeyless(cfg: Config, ctx: Context, total: nat, error: string, target: Tier, now: nat)
    requires ORIGINAL_KEY !in ctx.message.headers
    ensures ORIGINAL_KEY !in Copy(cfg, ctx, total, error, target, now).headers
  {
    hide Copy;
    KeyIsForeign();
    CopyCarriesOn(cfg, ctx, total, error, target, now);
  }

  lemma PublishKeyless(s: State, tier: Tier, m: Msg)
    requires Keyless(s) && ORIGINAL_KEY !in m.headers
    ensures Keyless(Publish(s, tier, m))
  {
    var s1 := Publish(s, tier, m);
    forall p | Exists(s1, p) ensures ORIGINAL_KEY !in MsgOf(s1, p).headers {
      assert Exists(s, p) ==> MsgOf(s1, p) == MsgOf(s, p);
    }
  }

  lemma NextKeyless(s: State, tp: Tp)
    requires Keyless(s) && tp in s.lanes && s.lanes[tp].Pending()
    ensures ORIGINAL_KEY !in ContextAt(s, tp).message.headers
  {
    assert Exists(s, OnMain(tp, s.lanes[tp].pos));
  }

  lemma HandleKeyless(cfg: Config, s: State, tp: Tp, outcome: Outcome, now: nat, sent: Send)
    requires Keyless(s) && tp in s.lanes && s.lanes[tp].Pending()
    ensures Keyless(Handle(cfg, s, tp, outcome, now, sent))
  {
    NextKeyless(s, tp);
    hide Keyless, Publish, Copy, Tally, Target, ParseAttempt;
    var ctx := ContextAt(s, tp);
    SameKeyless(s, AdvanceMain(s, tp));
    if ctx.message.value.Some? {
      var d := Decide(s.inflight, cfg, ctx, outcome, now);
      var s1 := Ran(s, d.inflight, ctx.message.uid, outcome);
      SameKeyless(s, s1);
      SameKeyless(s1, AdvanceMain(s1, tp));
      if d.verdict.Escalate? {
        EscalatedKeyless(cfg, s, s1, tp, outcome, now);
      }
    }
  }

  lemma EscalatedKeyless(cfg: Config, s: State, s1: State, tp: Tp, outcome: Outcome, now: nat)
    requires tp in s.lanes && s.lanes[tp].Pending() && ORIGINAL_KEY !in ContextAt(s, tp).message.headers
    requires Keyless(s1) && s1.lanes == s.lanes
    requires Decide(s.inflight, cfg, ContextAt(s, tp), outcome, now).verdict.Escalate?
    ensures var v := Decide(s.inflight, cfg, ContextAt(s, tp), outcome, now).verdict;
            var s2 := Publish(s1, v.tier, v.copy);
            Keyless(s2) && tp in s2.lanes && Keyless(AdvanceMain(s2, tp))
  {
    hide Keyless, Copy, ParseAttempt, Target;
    var ctx := ContextAt(s, tp);
    var v := Decide(s.inflight, cfg, ctx, outcome, now).verdict;
    CopyKeyless(cfg, ctx, Count(s.inflight, KeyOf(cfg, ctx)) + ParseAttempt(ctx.message), outcome.text, v.tier, now);
    PublishKeyless(s1, v.tier, v.copy);
    var s2 := Publish(s1, v.tier, v.copy);
    SameKeyless(s2, AdvanceMain(s2, tp));
  }

  lemma BounceKeyless(s: State, partition: nat, sent: Send)
    requires Keyless(s) && s.retry.Pending()
    ensures Keyless(Bounce(s, partition, sent))
  {
    assert Exists(s, OnRetry(s.retry.pos));
    var s1 := Bounce(s, partition, sent);
    forall p | Exists(s1, p) ensures ORIGINAL_KEY !in MsgOf(s1, p).headers {
      assert Exists(s, p) ==> MsgOf(s1, p) == MsgOf(s, p);
    }
  }

  lemma MirrorKeyless(s: State, stored: bool)
    requires Keyless(s) && s.dlq.Pending()
    ensures Keyless(Mirror(s, stored))
  {
    hide NumberIn;
    assert Exists(s, OnDlq(s.dlq.pos));
    var s1 := Mirror(s, stored);
    forall p | Exists(s1, p) ensures ORIGINAL_KEY !in MsgOf(s1, p).headers {
      assert Exists(s, p) && MsgOf(s1, p) == MsgOf(s, p);
    }
  }

  lemma EnterKeyless(s: State, tp: Tp, key: Option<string>, value: Option<string>, headers: Headers)
    requires Keyless(s) && tp in s.lanes && ORIGINAL_KEY !in headers
    ensures Keyless(Enter(s, tp, key, value, headers))
  {
    var s1 := Enter(s, tp, key, value, headers);
    forall p | Exists(s1, p) ensures ORIGINAL_KEY !in MsgOf(s1, p).headers {
      assert Exists(s, p) ==> MsgOf(s1, p) == MsgOf(s, p);
    }
  }

  lemma SendKeyless(s: State, q: nat, partition: nat, sent: Send)
    requires Keyless(s)
    ensures Keyless(SendReplay(s, q, partition, sent))
  {
    KeyIsForeign();
    hide Keyless, Enter, ReplayKey;
    SameKeyless(s, End(s, q));
    if q in s.requests && s.requests[q].ReplayRead? && s.requests[q].id < |s.rows| {
      var id := s.requests[q].id;
      var row := s.rows[id];
      var tp := Tp(row.originalTopic, partition);
      if tp in s.lanes {
        var headers := OnWire(ReplayHeaders(id, row));
        EnterKeyless(s, tp, Some(ReplayKey(row)), Some(row.payload), headers);
        var s1 := Enter(s, tp, Some(ReplayKey(row)), Some(row.payload), headers);
        SameKeyless(s1, End(s1, q));
        SameKeyless(s1, s1.(requests := s1.requests[q := ReplaySent(id)]));
      }
    }
  }

  lemma StepKeyless(cfg: Config, s: State, a: Action)
    requires Keyless(s) && WritesNoKey(a)
    ensures Keyless(Step(cfg, s, a))
  {
    hide Keyless, Handle, Bounce, Mirror, Enter, SendReplay;
    if a.Produce? && a.tp in s.lanes {
      EnterKeyless(s, a.tp, a.key, a.value, a.headers);
    } else if a.HandleNext? && a.tp in s.lanes && s.lanes[a.tp].Pending() {
      HandleKeyless(cfg, s, a.tp, a.outcome, a.now, a.sent);
    } else if a.BounceNext? && s.retry.Pending() {
      BounceKeyless(s, a.partition, a.sent);
    } else if a.MirrorNext? && s.dlq.Pending() {
      MirrorKeyless(s, a.stored);
    } else if a.SendRow? {
      SendKeyless(s, a.request, a.partition, a.sent);
    } else {
      SameKeyless(s, Step(cfg, s, a));
    }
  }

  lemma {:induction false} RunKeyless(cfg: Config, s: State, actions: seq<Action>)
    requires Keyless(s) && forall i :: 0 <= i < |actions| ==> WritesNoKey(actions[i])
    ensures Keyless(Run(cfg, s, actions))
    decreases |actions|
  {
    hide Keyless, Step;
    if actions != [] {
      StepKeyless(cfg, s, actions[0]);
      RunKeyless(cfg, Step(cfg, s, actions[0]), actions[1..]);
    }
  }

  /** So after every run of producers that do not write the header, a replay enters its topic under the row's original offset. */
  lemma ReplaysUseTheOffset(cfg: Config, s: State, actions: seq<Action>, q: nat, partition: nat)
    requires Initial(s) && forall i :: 0 <= i < |actions| ==> WritesNoKey(actions[i])
    requires var r := Run(cfg, s, actions);
             && q in r.requests && r.requests[q].ReplayRead? && r.requests[q].id < |r.rows|
             && Tp(r.rows[r.requests[q].id].originalTopic, partition) in r.lanes
    ensures var r := Run(cfg, s, actions);
            var row := r.rows[r.requests[q].id];
            var tp := Tp(row.originalTopic, partition);
            var log1 := SendReplay(r, q, partition, Acked).lanes[tp].log;
            |log1| == |r.lanes[tp].log| + 1 && log1[|r.lanes[tp].log|].key == Some(row.originalOffset)
  {
    RunKeyless(cfg, s, actions);
    hide ReplayHeaders;
  }
}
