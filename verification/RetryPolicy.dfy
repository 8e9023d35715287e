/**
 The retry policy around a consumer's handler: count the attempts of one stay,
 then hand the message on to the retry tier or to the dead-letter topic.
 */
module RetryPolicy {
  import opened Wrappers
  import opened Decimals

  // ----------------------------------------------------------------- headers

  /** A header as the client library delivers it. */
  datatype HeaderValue =
    | Text(text: string)
    | Bytes(text: string)
    | Many(values: seq<HeaderValue>)
    | Absent

  type Headers = map<string, HeaderValue>

  predicate Textual(v: HeaderValue) {
    v.Text? || v.Bytes?
  }

  const ATTEMPT := "x-orbit-attempt"
  const ORIGINAL_TOPIC := "x-orbit-original-topic"
  const ORIGINAL_PARTITION := "x-orbit-original-partition"
  const ORIGINAL_OFFSET := "x-orbit-original-offset"
  const LAST_ERROR := "x-orbit-last-error"
  const WORKER := "x-orbit-worker"
  const RETRY_AFTER := "x-orbit-retry-after"
  const REPLAY_OF := "x-orbit-replay-of"

  /** What the policy itself writes when it hands a message on. */
  const POLICY_HEADERS: set<string> :=
    {ATTEMPT, ORIGINAL_TOPIC, ORIGINAL_PARTITION, ORIGINAL_OFFSET, LAST_ERROR, WORKER, RETRY_AFTER}

  /** `uid` tells messages apart in the statements; no code looks at it, copies keep it. */
  datatype Msg = Msg(key: Option<string>, value: Option<string>, headers: Headers, uid: nat)

  /** `readHeader`. */
  function ReadHeader(h: Headers, name: string): Option<string> {
    if name !in h then None
    else
      match h[name] {
        case Text(s) => Some(s)
        case Bytes(s) => Some(s)
        case Many(vs) => if vs != [] && Textual(vs[0]) then Some(vs[0].text) else None
        case Absent => None
      }
  }

  /** `parseAttempt`: anything that is not a number counts as 0. */
  function ParseAttempt(m: Msg): nat {
    match ReadHeader(m.headers, ATTEMPT) {
      case None => 0
      case Some(raw) => ParseNat(raw).GetOr(0)
    }
  }

  /** `materializeHeaders`: textual headers only; lists are dropped. */
  function Materialize(h: Headers): map<string, string> {
    map k | k in h && Textual(h[k]) :: h[k].text
  }

  method MaterializeHeaders(h: Headers) returns (out: map<string, string>)
    ensures out == Materialize(h)
  {
    out := map[];
    var rest := h.Keys;
    while rest != {}
      invariant rest <= h.Keys
      invariant out == map k | k in h && k !in rest && Textual(h[k]) :: h[k].text
      decreases |rest|
    {
      var k :| k in rest;
      if Textual(h[k]) {
        out := out[k := h[k].text];
      }
      rest := rest - {k};
    }
  }

  /** Headers written as text are read back as bytes. */
  function OnWire(out: map<string, string>): Headers {
    map k | k in out :: Bytes(out[k])
  }

  lemma OnWireReads(out: map<string, string>, name: string)
    ensures ReadHeader(OnWire(out), name) == if name in out then Some(out[name]) else None
    ensures Materialize(OnWire(out)) == out
  {
  }

  // ---------------------------------------------------------------- decision

  datatype Config = Config(worker: string, inFlightAttempts: nat, retryDelayMs: nat)

  datatype Context = Context(topic: string, partition: nat, offset: nat, message: Msg)

  datatype ErrorKind = Transient | Permanent

  /** How the handler ended; the classification of its error is arbitrary. */
  datatype Outcome = Success | Failure(kind: ErrorKind, text: string)

  /** What became of a publish: acknowledged, failed, or written although the call failed. */
  datatype Send = Acked | Lost | AckLost

  datatype Tier = RetryTier | DeadLetter

  datatype AttemptKey = AttemptKey(worker: string, topic: string, partition: nat, offset: nat)

  type Inflight = map<AttemptKey, nat>

  function KeyOf(cfg: Config, ctx: Context): AttemptKey {
    AttemptKey(cfg.worker, ctx.topic, ctx.partition, ctx.offset)
  }

  function Count(inflight: Inflight, k: AttemptKey): nat {
    if k in inflight then inflight[k] else 0
  }

  function Truncate(s: string, n: nat): (r: string)
    requires n >= 3
    ensures |r| <= n && (|s| <= n ==> r == s)
  {
    if |s| > n then s[..n - 3] + "..." else s
  }

  /** First escalation of a transient error goes to the retry tier, everything else to the dead letters. */
  function Target(kind: ErrorKind, headerAttempt: nat): Tier {
    if kind.Transient? && headerAttempt == 0 then RetryTier else DeadLetter
  }

  function CopyHeaders(cfg: Config, ctx: Context, total: nat, error: string, target: Tier, now: nat): map<string, string> {
    var h := Materialize(ctx.message.headers)[ORIGINAL_TOPIC := ctx.topic][ORIGINAL_PARTITION := NatText(ctx.partition)]
             [ORIGINAL_OFFSET := NatText(ctx.offset)][ATTEMPT := NatText(total + 1)][LAST_ERROR := Truncate(error, 1000)]
             [WORKER := cfg.worker];
    if target.RetryTier? then h[RETRY_AFTER := NatText(now + cfg.retryDelayMs)] else h
  }

  function Copy(cfg: Config, ctx: Context, total: nat, error: string, target: Tier, now: nat): Msg {
    ctx.message.(headers := OnWire(CopyHeaders(cfg, ctx, total, error, target, now)))
  }

  /** Done: the offset may advance. Again: the handler throws and the message is delivered again. */
  datatype Verdict = Done | Again | Escalate(tier: Tier, copy: Msg)

  datatype Decision = Decision(inflight: Inflight, verdict: Verdict)

  function Decide(inflight: Inflight, cfg: Config, ctx: Context, outcome: Outcome, now: nat): Decision {
    var k := KeyOf(cfg, ctx);
    match outcome {
      case Success => Decision(inflight - {k}, Done)
      case Failure(kind, error) =>
        var total := Count(inflight, k) + ParseAttempt(ctx.message);
        if total < cfg.inFlightAttempts then Decision(inflight[k := Count(inflight, k) + 1], Again)
        else
          var target := Target(kind, ParseAttempt(ctx.message));
          Decision(inflight - {k}, Escalate(target, Copy(cfg, ctx, total, error, target, now)))
    }
  }

  /** The policy object of one consumer process. */
  class RetryingConsumer {
    const cfg: Config
    var inflightCount: Inflight
    var published: seq<(Tier, Msg)>   // what the producer has put on the two topics

    constructor (cfg: Config)
      ensures this.cfg == cfg && inflightCount == map[] && published == []
    {
      this.cfg, inflightCount, published := cfg, map[], [];
    }

    /** `withRetryPolicy`: `advance` says whether the offset moves on or the message is delivered again. */
    method WithRetryPolicy(ctx: Context, outcome: Outcome, now: nat, sent: Send) returns (advance: bool)
      modifies this
      ensures var d := Decide(old(inflightCount), cfg, ctx, outcome, now);
              && inflightCount == d.inflight
              && advance == (d.verdict.Done? || (d.verdict.Escalate? && sent.Acked?))
              && published == old(published) + if d.verdict.Escalate? && !sent.Lost? then [(d.verdict.tier, d.verdict.copy)] else []
    {
      var attemptKey := KeyOf(cfg, ctx);
      var headerAttempt := ParseAttempt(ctx.message);
      if outcome.Success? {
        inflightCount := inflightCount - {attemptKey};
        return true;
      }
      var memCount := 0;
      if attemptKey in inflightCount {
        memCount := inflightCount[attemptKey];
      }
      var totalAttempts := memCount + headerAttempt;
      if totalAttempts < cfg.inFlightAttempts {
        inflightCount := inflightCount[attemptKey := memCount + 1];
        return false;
      }
      inflightCount := inflightCount - {attemptKey};
      var target := DeadLetter;
      if outcome.kind.Transient? && headerAttempt == 0 {
        target := RetryTier;
      }
      var headers := MaterializeHeaders(ctx.message.headers);
      headers := headers[ORIGINAL_TOPIC := ctx.topic];
      headers := headers[ORIGINAL_PARTITION := NatText(ctx.partition)];
      headers := headers[ORIGINAL_OFFSET := NatText(ctx.offset)];
      headers := headers[ATTEMPT := NatText(totalAttempts + 1)];
      headers := headers[LAST_ERROR := Truncate(outcome.text, 1000)];
      headers := headers[WORKER := cfg.worker];
      if target.RetryTier? {
        headers := headers[RETRY_AFTER := NatText(now + cfg.retryDelayMs)];
      }
      if !sent.Lost? {
        published := published + [(target, ctx.message.(headers := OnWire(headers)))];
      }
      advance := sent.Acked?;
    }
  }

  // -------------------------------------------------------------- properties

  lemma HeaderNamesDiffer()
    ensures ATTEMPT != ORIGINAL_TOPIC && ATTEMPT != ORIGINAL_PARTITION && ATTEMPT != ORIGINAL_OFFSET && ATTEMPT != LAST_ERROR
    ensures ATTEMPT != WORKER && ATTEMPT != RETRY_AFTER && ATTEMPT != REPLAY_OF
    ensures ORIGINAL_TOPIC != ORIGINAL_PARTITION && ORIGINAL_TOPIC != ORIGINAL_OFFSET && ORIGINAL_TOPIC != LAST_ERROR
    ensures ORIGINAL_TOPIC != WORKER && ORIGINAL_TOPIC != RETRY_AFTER && ORIGINAL_TOPIC != REPLAY_OF
    ensures REPLAY_OF !in POLICY_HEADERS
  {
  }

  /** What a copy keeps and what it carries. */
  ghost predicate CarriesOn(m: Msg, copy: Msg, topic: string, attempt: nat) {
    && copy.uid == m.uid && copy.key == m.key && copy.value == m.value
    && ReadHeader(copy.headers, ORIGINAL_TOPIC) == Some(topic)
    && ParseAttempt(copy) == attempt
    && (forall name :: name !in POLICY_HEADERS && name in m.headers && Textual(m.headers[name]) ==>
          ReadHeader(copy.headers, name) == ReadHeader(m.headers, name))
    && (forall name :: name in copy.headers ==> Textual(copy.headers[name]))
    && (forall name :: name !in POLICY_HEADERS && name in copy.headers ==> name in m.headers && Textual(m.headers[name]))
  }

  lemma CopyCarriesOn(cfg: Config, ctx: Context, total: nat, error: string, target: Tier, now: nat)
    ensures CarriesOn(ctx.message, Copy(cfg, ctx, total, error, target, now), ctx.topic, total + 1)
  {
    HeaderNamesDiffer();
    ParseNatRoundTrip(total + 1);
    var h := CopyHeaders(cfg, ctx, total, error, target, now);
    OnWireReads(h, ATTEMPT);
    OnWireReads(h, ORIGINAL_TOPIC);
  }

  function Max0(x: int): nat {
    if x > 0 then x else 0
  }

  /** Handler runs of one stay of a message that always fails: deliver it until the policy hands it on. */
  function StayRuns(inflight: Inflight, cfg: Config, ctx: Context, kinds: nat -> ErrorKind, run: nat): nat
    requires Count(inflight, KeyOf(cfg, ctx)) + ParseAttempt(ctx.message) <= cfg.inFlightAttempts || KeyOf(cfg, ctx) !in inflight
    decreases Max0(cfg.inFlightAttempts - Count(inflight, KeyOf(cfg, ctx)) - ParseAttempt(ctx.message))
  {
    var d := Decide(inflight, cfg, ctx, Failure(kinds(run), ""), 0);
    if d.verdict.Again? then 1 + StayRuns(d.inflight, cfg, ctx, kinds, run + 1) else 1
  }

  /** One stay takes max(budget - header attempt, 0) + 1 runs, less those already counted, whatever the errors are. */
  lemma {:induction false} StayIsExact(inflight: Inflight, cfg: Config, ctx: Context, kinds: nat -> ErrorKind, run: nat)
    requires Count(inflight, KeyOf(cfg, ctx)) + ParseAttempt(ctx.message) <= cfg.inFlightAttempts || KeyOf(cfg, ctx) !in inflight
    ensures StayRuns(inflight, cfg, ctx, kinds, run)
            == Max0(cfg.inFlightAttempts - ParseAttempt(ctx.message)) + 1 - Count(inflight, KeyOf(cfg, ctx))
    decreases Max0(cfg.inFlightAttempts - Count(inflight, KeyOf(cfg, ctx)) - ParseAttempt(ctx.message))
  {
    var d := Decide(inflight, cfg, ctx, Failure(kinds(run), ""), 0);
    if d.verdict.Again? {
      StayIsExact(d.inflight, cfg, ctx, kinds, run + 1);
    }
  }

  /** A stay is counted only while it lasts: one more after a delivery that will come again, nothing once it has ended. */
  lemma CountedWhileItLasts(inflight: Inflight, cfg: Config, ctx: Context, outcome: Outcome, now: nat)
    ensures var d := Decide(inflight, cfg, ctx, outcome, now);
            if d.verdict.Again? then Count(d.inflight, KeyOf(cfg, ctx)) == Count(inflight, KeyOf(cfg, ctx)) + 1
            else KeyOf(cfg, ctx) !in d.inflight
    ensures Decide(inflight, cfg, ctx, outcome, now).verdict.Done? <==> outcome.Success?
  {
  }

  /** Of a header with several values the first one counts, if it is a text. */
  lemma FirstValueCounts(h: Headers, name: string, text: string)
    ensures ReadHeader(h, name) == Some(text) <==>
              && name in h
              && (h[name] == Text(text) || h[name] == Bytes(text)
                  || (h[name].Many? && h[name].values != [] && (h[name].values[0] == Text(text) || h[name].values[0] == Bytes(text))))
  {
  }

  /** Deciding about one message never touches the count of another. */
  lemma OtherCountsKept(inflight: Inflight, cfg: Config, ctx: Context, outcome: Outcome, now: nat, k: AttemptKey)
    requires k != KeyOf(cfg, ctx)
    ensures Count(Decide(inflight, cfg, ctx, outcome, now).inflight, k) == Count(inflight, k)
  {
  }
}
