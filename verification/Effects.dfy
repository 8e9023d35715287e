/**
 The dedupe wrapper inside the retry policy, as the notification and fan-out
 workers run it. A delivery that finds its event's key is counted as handled,
 so a key left behind by a call that never completed makes the policy let go of
 a message whose effect nobody produced.
 */
module Effects {
  import opened Wrappers
  import opened RetryPolicy
  import opened Delivery
  import opened NoLoss
  import Dedupe

  /** A call of the wrapped handler between its SET and its end; an owner has taken the key. */
  datatype Call = Call(ctx: Context, owner: bool)

  /** `done` and `doneOnce` record whose handler has returned: by event id, and by message where there is no id. */
  datatype Worker = Worker(s: State, keys: set<string>, running: map<nat, Call>, done: set<string>, doneOnce: set<nat>)

  datatype Action =
    | BeginCall(call: nat, tp: Tp, up: bool, setAnyway: bool)   // not up: no reply; the key may have been set anyway
    | EndCall(call: nat, outcome: Outcome, delOk: bool, now: nat, sent: Send, late: Option<nat>)
    | DieIn(call: nat, finished: bool)                          // the replica is gone, before or after the effect
    | ExpireKey(key: string)
    | Foreign(worker: string, event: string, taken: bool)       // another worker takes or gives back a key of its own
    | Elsewhere(action: Delivery.Action)                        // rewinds, restarts, the retry worker, producers, the admin

  /** The event id in a message's value; empty where it has none. */
  type Ids = string -> string

  function EventOf(ids: Ids, m: Msg): string {
    if m.value.Some? then ids(m.value.value) else ""
  }

  /** The key of an event in the store that all workers share. */
  function Key(cfg: Config, event: string): string {
    Dedupe.KeyText(cfg.worker, event)
  }

  predicate Held(cfg: Config, w: Worker, event: string) {
    Key(cfg, event) in w.keys
  }

  /** Worker names have no colon. */
  predicate OtherWorker(cfg: Config, worker: string) {
    worker != cfg.worker && ':' !in worker && ':' !in cfg.worker
  }

  lemma KeysDiffer(cfg: Config)
    ensures forall a, b :: Key(cfg, a) == Key(cfg, b) ==> a == b
    ensures forall worker, a, b :: OtherWorker(cfg, worker) ==> Dedupe.KeyText(worker, a) != Key(cfg, b)
  {
    hide Dedupe.KeyText;
    forall a, b | Key(cfg, a) == Key(cfg, b) ensures a == b {
      Dedupe.SameWorkerSameEvent(cfg.worker, a, b);
    }
    forall worker, a, b | OtherWorker(cfg, worker) ensures Dedupe.KeyText(worker, a) != Key(cfg, b) {
      Dedupe.WorkersKeepApart(worker, cfg.worker, a, b);
    }
  }

  /** The policy of a consumer that no longer owns the partition: its offset is refused, its publish is not. */
  function EndLate(cfg: Config, s: State, ctx: Context, outcome: Outcome, now: nat, sent: Send, late: Option<nat>): State {
    if outcome.Success? || late.None? || sent.Lost? then s
    else
      var tier := Target(outcome.kind, ParseAttempt(ctx.message));
      Publish(s, tier, Copy(cfg, ctx, late.value, outcome.text, tier, now))
  }

  predicate AtPosition(s: State, ctx: Context) {
    var tp := Tp(ctx.topic, ctx.partition);
    tp in s.lanes && s.lanes[tp].Pending() && ContextAt(s, tp) == ctx
  }

  predicate Delivers(w: Worker, a: Action) {
    a.BeginCall? && a.call !in w.running && a.tp in w.s.lanes && w.s.lanes[a.tp].Pending()
  }

  function Delivered(w: Worker, a: Action): Msg
    requires Delivers(w, a)
  {
    ContextAt(w.s, a.tp).message
  }

  function Begin(cfg: Config, ids: Ids, w: Worker, a: Action): Worker
    requires Delivers(w, a)
  {
    var ctx := ContextAt(w.s, a.tp);
    var event := EventOf(ids, ctx.message);
    if ctx.message.value.None? then w.(s := AdvanceMain(w.s, a.tp))
    else if event == "" then w.(running := w.running[a.call := Call(ctx, false)])
    else if !a.up then
      w.(running := w.running[a.call := Call(ctx, false)], keys := w.keys + if a.setAnyway then {Key(cfg, event)} else {})
    else if Held(cfg, w, event) then w.(s := Handle(cfg, w.s, a.tp, Success, 0, Acked))
    else w.(running := w.running[a.call := Call(ctx, true)], keys := w.keys + {Key(cfg, event)})
  }

  function Completed(ids: Ids, w: Worker, m: Msg): Worker {
    var event := EventOf(ids, m);
    if event == "" then w.(doneOnce := w.doneOnce + {m.uid}) else w.(done := w.done + {event})
  }

  function End(cfg: Config, ids: Ids, w: Worker, a: Action): Worker
    requires a.EndCall? && a.call in w.running
  {
    var c := w.running[a.call];
    var w1 := w.(running := w.running - {a.call},
                 s := if AtPosition(w.s, c.ctx) then Handle(cfg, w.s, Tp(c.ctx.topic, c.ctx.partition), a.outcome, a.now, a.sent)
                      else EndLate(cfg, w.s, c.ctx, a.outcome, a.now, a.sent, a.late));
    if a.outcome.Success? then Completed(ids, w1, c.ctx.message)
    else if c.owner && a.delOk then w1.(keys := w1.keys - {Key(cfg, EventOf(ids, c.ctx.message))})
    else w1
  }

  function Next(cfg: Config, ids: Ids, w: Worker, a: Action): Worker {
    match a {
      case BeginCall(_, _, _, _) => if Delivers(w, a) then Begin(cfg, ids, w, a) else w
      case EndCall(q, _, _, _, _, _) => if q in w.running then End(cfg, ids, w, a) else w
      case DieIn(q, finished) =>
        if q !in w.running then w
        else
          var w1 := w.(running := w.running - {q});
          if finished then Completed(ids, w1, w.running[q].ctx.message) else w1
      case ExpireKey(key) => w.(keys := w.keys - {key})
      case Foreign(worker, event, taken) =>
        if !OtherWorker(cfg, worker) then w
        else w.(keys := if taken then w.keys + {Dedupe.KeyText(worker, event)} else w.keys - {Dedupe.KeyText(worker, event)})
      case Elsewhere(action) => if action.HandleNext? then w else w.(s := Step(cfg, w.s, action))
    }
  }

  function NextAll(cfg: Config, ids: Ids, w: Worker, actions: seq<Action>): Worker
    decreases |actions|
  {
    if actions == [] then w else NextAll(cfg, ids, Next(cfg, ids, w, actions[0]), actions[1..])
  }

  ghost predicate Start(w: Worker) {
    Initial(w.s) && w == Worker(w.s, {}, map[], {}, {})
  }

  // ----------------------------------------------------------- what is kept

  predicate Entered(s: State, uid: nat) {
    uid < |s.history.origin| && s.history.origin[uid].value.Some?
  }

  /** Some run of the handler for the message's event, or for the message itself, has returned. */
  predicate Done(ids: Ids, w: Worker, uid: nat)
    requires Entered(w.s, uid)
  {
    var event := ids(w.s.history.origin[uid].value.value);
    if event == "" then uid in w.doneOnce else event in w.done
  }

  ghost predicate Kept(ids: Ids, w: Worker, uid: nat)
    requires Entered(w.s, uid)
  {
    Done(ids, w, uid) || exists p :: LiveCopy(w.s, p, uid)
  }

  /** Calls belong to messages that entered, and what the policy counts as handled is done. */
  ghost predicate CallOk(s: State, c: Call) {
    && Entered(s, c.ctx.message.uid)
    && s.history.origin[c.ctx.message.uid] == Origin(c.ctx.topic, c.ctx.message.key, c.ctx.message.value)
    && c.ctx.topic != ""
  }

  ghost predicate CallsOk(w: Worker) {
    forall q :: q in w.running ==> CallOk(w.s, w.running[q])
  }

  ghost predicate AllDone(ids: Ids, w: Worker) {
    forall uid :: uid in w.s.history.succeeded ==> Entered(w.s, uid) && Done(ids, w, uid)
  }

  ghost predicate EffectInv(ids: Ids, w: Worker) {
    DeliveryInv(w.s) && CallsOk(w) && AllDone(ids, w)
  }

  /** The delivery finds the key of an event whose handler has never returned. */
  predicate MeetsPoison(cfg: Config, ids: Ids, w: Worker, a: Action) {
    && Delivers(w, a) && a.up
    && var event := EventOf(ids, Delivered(w, a)); event != "" && Held(cfg, w, event) && event !in w.done
  }

  /** Origins are the same or more, and whatever is newly counted as handled is done. */
  lemma HistoryKeeps(ids: Ids, w: Worker, w1: Worker)
    requires CallsOk(w) && AllDone(ids, w)
    requires w.s.history.origin <= w1.s.history.origin && w.done <= w1.done && w.doneOnce <= w1.doneOnce
    requires forall uid :: uid in w1.s.history.succeeded && uid !in w.s.history.succeeded ==> Entered(w1.s, uid) && Done(ids, w1, uid)
    requires forall q :: q in w1.running ==> (q in w.running && w1.running[q] == w.running[q]) || CallOk(w1.s, w1.running[q])
    ensures CallsOk(w1) && AllDone(ids, w1)
  {
  }

  lemma DeliveredGenuine(w: Worker, a: Action)
    requires DeliveryInv(w.s) && Delivers(w, a)
    ensures Delivered(w, a).value.Some? ==> CallOk(w.s, Call(ContextAt(w.s, a.tp), true)) && CallOk(w.s, Call(ContextAt(w.s, a.tp), false))
  {
    MessageGenuine(w.s, OnMain(a.tp, w.s.lanes[a.tp].pos));
  }

  lemma BeginKeeps(cfg: Config, ids: Ids, w: Worker, a: Action)
    requires EffectInv(ids, w) && Delivers(w, a)
    ensures DeliveryInv(Begin(cfg, ids, w, a).s)
    ensures !MeetsPoison(cfg, ids, w, a) ==> EffectInv(ids, Begin(cfg, ids, w, a))
  {
    hide DeliveryInv, Handle, CallsOk, AllDone;
    DeliveredGenuine(w, a);
    var m := Delivered(w, a);
    if m.value.None? {
      HandleKeeps(cfg, w.s, a.tp, Success, 0, Acked);
      assert Handle(cfg, w.s, a.tp, Success, 0, Acked) == AdvanceMain(w.s, a.tp) by { SkippedWithoutValue(cfg, w.s, a.tp); }
    } else if Held(cfg, w, EventOf(ids, m)) && a.up {
      HandleKeeps(cfg, w.s, a.tp, Success, 0, Acked);
      HandleSucceeds(cfg, w.s, a.tp, Success, 0, Acked);
      HandleHistory(cfg, w.s, a.tp, Success, 0, Acked);
    }
    if !MeetsPoison(cfg, ids, w, a) {
      HistoryKeeps(ids, w, Begin(cfg, ids, w, a));
    }
  }

  lemma SkippedWithoutValue(cfg: Config, s: State, tp: Tp)
    requires tp in s.lanes && s.lanes[tp].Pending() && ContextAt(s, tp).message.value.None?
    ensures Handle(cfg, s, tp, Success, 0, Acked) == AdvanceMain(s, tp)
  {
  }

  lemma LateKeeps(cfg: Config, s: State, c: Call, outcome: Outcome, now: nat, sent: Send, late: Option<nat>)
    requires DeliveryInv(s) && CallOk(s, c)
    ensures var s1 := EndLate(cfg, s, c.ctx, outcome, now, sent, late);
            && DeliveryInv(s1) && s1.history.origin == s.history.origin && s1.history.succeeded == s.history.succeeded
  {
    hide AllGenuine, AllSafe, LanesOk, Copy;
    if outcome.Failure? && late.Some? && !sent.Lost? {
      var tier := Target(outcome.kind, ParseAttempt(c.ctx.message));
      var copy := Copy(cfg, c.ctx, late.value, outcome.text, tier, now);
      CopyAddressed(cfg, c.ctx, late.value, outcome.text, tier, now);
      CopyCarriesOn(cfg, c.ctx, late.value, outcome.text, tier, now);
      PublishKeeps(s, tier, copy);
      AllSafeKept(s, Publish(s, tier, copy));
    }
  }

  lemma EndKeeps(cfg: Config, ids: Ids, w: Worker, a: Action)
    requires EffectInv(ids, w) && a.EndCall? && a.call in w.running
    ensures EffectInv(ids, End(cfg, ids, w, a))
  {
    hide DeliveryInv, Handle, EndLate, AllDone;
    var c := w.running[a.call];
    var tp := Tp(c.ctx.topic, c.ctx.partition);
    if AtPosition(w.s, c.ctx) {
      HandleKeeps(cfg, w.s, tp, a.outcome, a.now, a.sent);
      HandleSucceeds(cfg, w.s, tp, a.outcome, a.now, a.sent);
      HandleHistory(cfg, w.s, tp, a.outcome, a.now, a.sent);
    } else {
      LateKeeps(cfg, w.s, c, a.outcome, a.now, a.sent, a.late);
    }
    HistoryKeeps(ids, w, End(cfg, ids, w, a));
  }

  lemma NextKeeps(cfg: Config, ids: Ids, w: Worker, a: Action)
    requires EffectInv(ids, w)
    ensures DeliveryInv(Next(cfg, ids, w, a).s)
    ensures !MeetsPoison(cfg, ids, w, a) ==> EffectInv(ids, Next(cfg, ids, w, a))
  {
    hide DeliveryInv, CallsOk, AllDone, Begin, End, Step;
    match a {
      case BeginCall(_, _, _, _) => if Delivers(w, a) { BeginKeeps(cfg, ids, w, a); }
      case EndCall(q, _, _, _, _, _) => if q in w.running { EndKeeps(cfg, ids, w, a); }
      case DieIn(q, finished) => HistoryKeeps(ids, w, Next(cfg, ids, w, a));
      case ExpireKey(key) => HistoryKeeps(ids, w, Next(cfg, ids, w, a));
      case Foreign(worker, event, taken) => HistoryKeeps(ids, w, Next(cfg, ids, w, a));
      case Elsewhere(action) =>
        if !action.HandleNext? {
          StepKeeps(cfg, w.s, action);
          OriginsGrow(cfg, w.s, action);
          HistoryKeeps(ids, w, Next(cfg, ids, w, a));
        }
    }
  }

  /** No delivery on the way meets a poisoned key. */
  ghost predicate NeverPoisoned(cfg: Config, ids: Ids, w: Worker, actions: seq<Action>)
    decreases |actions|
  {
    actions == [] || (!MeetsPoison(cfg, ids, w, actions[0]) && NeverPoisoned(cfg, ids, Next(cfg, ids, w, actions[0]), actions[1..]))
  }

  lemma {:induction false} RunKeepsEffects(cfg: Config, ids: Ids, w: Worker, actions: seq<Action>)
    requires EffectInv(ids, w) && NeverPoisoned(cfg, ids, w, actions)
    ensures EffectInv(ids, NextAll(cfg, ids, w, actions))
    decreases |actions|
  {
    hide EffectInv, Next, MeetsPoison;
    if actions != [] {
      NextKeeps(cfg, ids, w, actions[0]);
      RunKeepsEffects(cfg, ids, Next(cfg, ids, w, actions[0]), actions[1..]);
    }
  }

  /**
   Over every run in which no delivery meets a poisoned key, whatever crashes,
   rebalances, expiries and failed publishes there are: a message that entered
   has had its effect, or a copy of it is still to be consumed or a dead letter.
   */
  lemma NoEffectIsLost(cfg: Config, ids: Ids, w: Worker, actions: seq<Action>, uid: nat)
    requires Start(w) && NeverPoisoned(cfg, ids, w, actions) && Entered(NextAll(cfg, ids, w, actions).s, uid)
    ensures Kept(ids, NextAll(cfg, ids, w, actions), uid)
  {
    InitialOk(w.s);
    RunKeepsEffects(cfg, ids, w, actions);
    assert Safe(NextAll(cfg, ids, w, actions).s, uid);
  }

  // ------------------------------------------------------- what is lost, exactly

  ghost predicate OnlyCopy(s: State, uid: nat, here: Place) {
    forall p :: LiveCopy(s, p, uid) ==> p == here
  }

  lemma EnteredStays(cfg: Config, ids: Ids, w: Worker, a: Action, uid: nat)
    requires EffectInv(ids, w) && Entered(w.s, uid)
    ensures Entered(Next(cfg, ids, w, a).s, uid) && Next(cfg, ids, w, a).s.history.origin[uid] == w.s.history.origin[uid]
  {
    hide DeliveryInv, AllDone, Handle, EndLate, Step;
    match a {
      case BeginCall(_, _, _, _) => if Delivers(w, a) { HandleHistory(cfg, w.s, a.tp, Success, 0, Acked); }
      case EndCall(q, outcome, _, now, sent, late) =>
        if q in w.running {
          var c := w.running[q];
          LateKeeps(cfg, w.s, c, outcome, now, sent, late);
          if AtPosition(w.s, c.ctx) {
            HandleHistory(cfg, w.s, Tp(c.ctx.topic, c.ctx.partition), outcome, now, sent);
          }
        }
      case DieIn(q, finished) =>
      case ExpireKey(key) =>
      case Foreign(worker, event, taken) =>
      case Elsewhere(action) => if !action.HandleNext? { OriginsGrow(cfg, w.s, action); }
    }
  }

  /** The wrapper's skip: the policy counts the message as handled, and only its place on the lane is gone. */
  lemma PoisonedSkip(cfg: Config, ids: Ids, w: Worker, a: Action)
    requires EffectInv(ids, w) && MeetsPoison(cfg, ids, w, a)
    ensures var w1 := Next(cfg, ids, w, a);
            var m := Delivered(w, a);
            && w1.done == w.done && w1.doneOnce == w.doneOnce
            && Entered(w.s, m.uid) && !Done(ids, w, m.uid)
            && w1.s.history.succeeded == w.s.history.succeeded + {m.uid}
            && forall p, uid :: LiveCopy(w1.s, p, uid) <==> LiveCopy(w.s, p, uid) && p != OnMain(a.tp, w.s.lanes[a.tp].pos)
  {
    hide DeliveryInv;
    DeliveredGenuine(w, a);
  }

  /** One step loses a message exactly when it delivers the message's last copy and finds a poisoned key. */
  lemma LosesExactly(cfg: Config, ids: Ids, w: Worker, a: Action, uid: nat)
    requires EffectInv(ids, w) && Entered(w.s, uid)
    ensures Entered(Next(cfg, ids, w, a).s, uid)
    ensures !Kept(ids, Next(cfg, ids, w, a), uid)
            <==> MeetsPoison(cfg, ids, w, a) && Delivered(w, a).uid == uid && OnlyCopy(w.s, uid, OnMain(a.tp, w.s.lanes[a.tp].pos))
  {
    hide Next, LanesOk, AllGenuine, CallsOk;
    EnteredStays(cfg, ids, w, a, uid);
    NextKeeps(cfg, ids, w, a);
    var w1 := Next(cfg, ids, w, a);
    assert Safe(w1.s, uid) && Safe(w.s, uid);
    if MeetsPoison(cfg, ids, w, a) {
      PoisonedSkip(cfg, ids, w, a);
    }
  }

  // ------------------------------------------------------------ where poison comes from

  predicate OwnedBy(ids: Ids, w: Worker, q: nat, event: string) {
    q in w.running && w.running[q].owner && EventOf(ids, w.running[q].ctx.message) == event
  }

  /** The key of an event is there, its handler has never returned, and no call that could still complete holds it. */
  ghost predicate Stale(cfg: Config, ids: Ids, w: Worker, event: string) {
    Held(cfg, w, event) && event !in w.done && forall q :: !OwnedBy(ids, w, q, event)
  }

  /** The three ways to leave a key behind: a throw whose DEL fails, a death in the handler, a SET that worked without a reply. */
  predicate LeavesKey(ids: Ids, w: Worker, a: Action, event: string) {
    match a
    case EndCall(q, outcome, delOk, _, _, _) => OwnedBy(ids, w, q, event) && outcome.Failure? && !delOk
    case DieIn(q, finished) => OwnedBy(ids, w, q, event) && !finished
    case BeginCall(_, _, up, setAnyway) =>
      Delivers(w, a) && !up && setAnyway && EventOf(ids, Delivered(w, a)) == event
    case _ => false
  }

  /** A delivery that takes the key. */
  predicate Takes(cfg: Config, ids: Ids, w: Worker, a: Action, event: string) {
    Delivers(w, a) && a.up && event != "" && EventOf(ids, Delivered(w, a)) == event && !Held(cfg, w, event)
  }

  predicate Ends(w: Worker, a: Action) {
    (a.EndCall? || a.DieIn?) && a.call in w.running
  }

  lemma OwnersAfter(cfg: Config, ids: Ids, w: Worker, a: Action, event: string, q: nat)
    requires event != ""
    ensures OwnedBy(ids, Next(cfg, ids, w, a), q, event)
            <==> (OwnedBy(ids, w, q, event) && !(Ends(w, a) && q == a.call)) || (Takes(cfg, ids, w, a, event) && q == a.call)
  {
    hide Handle, EndLate, Step;
  }

  predicate Finishes(ids: Ids, w: Worker, a: Action, event: string) {
    Ends(w, a) && EventOf(ids, w.running[a.call].ctx.message) == event && (if a.EndCall? then a.outcome.Success? else a.finished)
  }

  lemma KeyAfter(cfg: Config, ids: Ids, w: Worker, a: Action, event: string)
    requires event != ""
    ensures event in Next(cfg, ids, w, a).done <==> event in w.done || Finishes(ids, w, a, event)
    ensures Held(cfg, Next(cfg, ids, w, a), event)
            <==> || Takes(cfg, ids, w, a, event)
                 || (a.BeginCall? && LeavesKey(ids, w, a, event))
                 || (Held(cfg, w, event) && a != ExpireKey(Key(cfg, event))
                     && !(a.EndCall? && OwnedBy(ids, w, a.call, event) && a.outcome.Failure? && a.delOk))
  {
    KeysDiffer(cfg);
    hide Key;
    hide Handle, EndLate, Step;
  }

  /** A key becomes stale exactly in these ways, when no other owner is running and nobody has finished the event. */
  lemma StaleExactly(cfg: Config, ids: Ids, w: Worker, a: Action, event: string)
    requires event != "" && !Stale(cfg, ids, w, event)
    ensures Stale(cfg, ids, Next(cfg, ids, w, a), event)
            <==> && LeavesKey(ids, w, a, event) && event !in w.done && (Held(cfg, w, event) || a.BeginCall?)
                 && forall q :: OwnedBy(ids, w, q, event) ==> Ends(w, a) && q == a.call
  {
    hide Next;
    KeyAfter(cfg, ids, w, a, event);
    forall q ensures OwnedBy(ids, Next(cfg, ids, w, a), q, event)
                     <==> (OwnedBy(ids, w, q, event) && !(Ends(w, a) && q == a.call)) || (Takes(cfg, ids, w, a, event) && q == a.call)
    {
      OwnersAfter(cfg, ids, w, a, event, q);
    }
    if Takes(cfg, ids, w, a, event) {
      OwnersAfter(cfg, ids, w, a, event, a.call);
    }
  }

  /** It ends exactly with the expiry of the key, or with a finished run that the store's silence let through. */
  lemma StaleEnds(cfg: Config, ids: Ids, w: Worker, a: Action, event: string)
    requires event != "" && Stale(cfg, ids, w, event)
    ensures !Stale(cfg, ids, Next(cfg, ids, w, a), event) <==> a == ExpireKey(Key(cfg, event)) || Finishes(ids, w, a, event)
  {
    hide Next;
    KeyAfter(cfg, ids, w, a, event);
    forall q ensures OwnedBy(ids, Next(cfg, ids, w, a), q, event)
                     <==> (OwnedBy(ids, w, q, event) && !(Ends(w, a) && q == a.call)) || (Takes(cfg, ids, w, a, event) && q == a.call)
    {
      OwnersAfter(cfg, ids, w, a, event, q);
    }
  }

  /** Steps that leave no key behind, and no second call for an event beside a running one. */
  ghost predicate Tidy(ids: Ids, w: Worker, a: Action) {
    && (forall event :: !LeavesKey(ids, w, a, event))
    && (Delivers(w, a) ==> forall q :: q in w.running ==> EventOf(ids, w.running[q].ctx.message) != EventOf(ids, Delivered(w, a)))
  }

  ghost predicate AllTidy(cfg: Config, ids: Ids, w: Worker, actions: seq<Action>)
    decreases |actions|
  {
    actions == [] || (Tidy(ids, w, actions[0]) && AllTidy(cfg, ids, Next(cfg, ids, w, actions[0]), actions[1..]))
  }

  /** Every key belongs to a finished event or to a call that is still running. */
  ghost predicate KeysAccounted(cfg: Config, ids: Ids, w: Worker) {
    forall event :: Held(cfg, w, event) && event !in w.done ==> exists q :: OwnedBy(ids, w, q, event)
  }

  lemma TidyStep(cfg: Config, ids: Ids, w: Worker, a: Action)
    requires KeysAccounted(cfg, ids, w) && Tidy(ids, w, a) && !Held(cfg, w, "")
    ensures !MeetsPoison(cfg, ids, w, a)
    ensures KeysAccounted(cfg, ids, Next(cfg, ids, w, a)) && !Held(cfg, Next(cfg, ids, w, a), "")
  {
    KeysDiffer(cfg);
    hide Key;
    hide Handle, EndLate, Step;
    var w1 := Next(cfg, ids, w, a);
    forall event | Held(cfg, w1, event) && event !in w1.done ensures exists q :: OwnedBy(ids, w1, q, event) {
      if Stale(cfg, ids, w1, event) {
        if !Stale(cfg, ids, w, event) {
          StaleExactly(cfg, ids, w, a, event);
        }
      }
    }
  }

  lemma {:induction false} TidyRun(cfg: Config, ids: Ids, w: Worker, actions: seq<Action>)
    requires KeysAccounted(cfg, ids, w) && !Held(cfg, w, "") && AllTidy(cfg, ids, w, actions)
    ensures NeverPoisoned(cfg, ids, w, actions)
    decreases |actions|
  {
    hide KeysAccounted, Tidy, Next, MeetsPoison;
    if actions != [] {
      TidyStep(cfg, ids, w, actions[0]);
      TidyRun(cfg, ids, Next(cfg, ids, w, actions[0]), actions[1..]);
    }
  }

  /** So with orderly failures - every DEL succeeds, nobody dies in a handler, no delivery runs beside another of its event - no effect is lost. */
  lemma TidyRunsLoseNothing(cfg: Config, ids: Ids, w: Worker, actions: seq<Action>, uid: nat)
    requires Start(w) && AllTidy(cfg, ids, w, actions) && Entered(NextAll(cfg, ids, w, actions).s, uid)
    ensures Kept(ids, NextAll(cfg, ids, w, actions), uid)
  {
    TidyRun(cfg, ids, w, actions);
    NoEffectIsLost(cfg, ids, w, actions, uid);
  }

  // ------------------------------------------------- one event's calls and its key

  /** Seen from one event, the workers are the dedupe machine. */
  ghost predicate SeenAs(cfg: Config, ids: Ids, w: Worker, event: string, d: Dedupe.State) {
    && d.held == Held(cfg, w, event)
    && forall q :: (q in d.running <==> q in w.running && EventOf(ids, w.running[q].ctx.message) == event)
                && (q in d.running ==> d.running[q] == if w.running[q].owner then Dedupe.Owner else Dedupe.FailOpen)
  }

  predicate CallsFor(ids: Ids, w: Worker, q: nat, event: string) {
    q in w.running && EventOf(ids, w.running[q].ctx.message) == event
  }

  /** What a step is for one event; None where it concerns others. */
  function SeenStep(cfg: Config, ids: Ids, w: Worker, a: Action, event: string): Option<Dedupe.Action> {
    match a {
      case BeginCall(q, _, up, setAnyway) =>
        if Delivers(w, a) && EventOf(ids, Delivered(w, a)) == event then Some(Dedupe.Begin(q, up, setAnyway)) else None
      case EndCall(q, outcome, delOk, _, _, _) =>
        if CallsFor(ids, w, q, event) then Some(if outcome.Success? then Dedupe.Return(q) else Dedupe.Throw(q, delOk)) else None
      case DieIn(q, finished) => if CallsFor(ids, w, q, event) then Some(Dedupe.Die(q, finished)) else None
      case ExpireKey(key) => if key == Key(cfg, event) then Some(Dedupe.Expire) else None
      case Foreign(_, _, _) => None
      case Elsewhere(_) => None
    }
  }

  function SeenAfter(cfg: Config, ids: Ids, w: Worker, a: Action, event: string, d: Dedupe.State): Dedupe.State {
    match SeenStep(cfg, ids, w, a, event)
    case None => d
    case Some(x) => Dedupe.Step(d, x)
  }

  /** The run as one event sees it. */
  function SeenRun(cfg: Config, ids: Ids, w: Worker, actions: seq<Action>, event: string): seq<Dedupe.Action>
    decreases |actions|
  {
    if actions == [] then []
    else
      var rest := SeenRun(cfg, ids, Next(cfg, ids, w, actions[0]), actions[1..], event);
      match SeenStep(cfg, ids, w, actions[0], event) {
        case None => rest
        case Some(x) => [x] + rest
      }
  }

  /** A run of the event's handler that the silent store lets through. */
  predicate RunsBlind(ids: Ids, w: Worker, a: Action, event: string) {
    Delivers(w, a) && !a.up && EventOf(ids, Delivered(w, a)) == event
  }

  predicate Expires(cfg: Config, w: Worker, a: Action, event: string) {
    a == ExpireKey(Key(cfg, event)) && Held(cfg, w, event)
  }

  /** How often the event's handler came to its end, by a return or before its replica died. */
  function FinishedRuns(cfg: Config, ids: Ids, w: Worker, actions: seq<Action>, event: string): nat
    decreases |actions|
  {
    if actions == [] then 0
    else (if Finishes(ids, w, actions[0], event) then 1 else 0)
         + FinishedRuns(cfg, ids, Next(cfg, ids, w, actions[0]), actions[1..], event)
  }

  function BlindRuns(cfg: Config, ids: Ids, w: Worker, actions: seq<Action>, event: string): nat
    decreases |actions|
  {
    if actions == [] then 0
    else (if RunsBlind(ids, w, actions[0], event) then 1 else 0)
         + BlindRuns(cfg, ids, Next(cfg, ids, w, actions[0]), actions[1..], event)
  }

  function Expiries(cfg: Config, ids: Ids, w: Worker, actions: seq<Action>, event: string): nat
    decreases |actions|
  {
    if actions == [] then 0
    else (if Expires(cfg, w, actions[0], event) then 1 else 0)
         + Expiries(cfg, ids, Next(cfg, ids, w, actions[0]), actions[1..], event)
  }

  function Finished(d: Dedupe.State): nat {
    d.ownerDone + d.openDone
  }

  lemma SeenBegin(cfg: Config, ids: Ids, w: Worker, a: Action, event: string, d: Dedupe.State)
    requires event != "" && SeenAs(cfg, ids, w, event, d) && Delivers(w, a)
    ensures SeenAs(cfg, ids, Begin(cfg, ids, w, a), event,
                   if EventOf(ids, Delivered(w, a)) == event then Dedupe.Step(d, Dedupe.Begin(a.call, a.up, a.setAnyway)) else d)
  {
    KeysDiffer(cfg);
    hide Key;
    hide Handle, AdvanceMain;
  }

  lemma SeenEnd(cfg: Config, ids: Ids, w: Worker, a: Action, event: string, d: Dedupe.State)
    requires event != "" && SeenAs(cfg, ids, w, event, d) && a.EndCall? && a.call in w.running
    ensures SeenAs(cfg, ids, End(cfg, ids, w, a), event,
                   Dedupe.Step(d, if a.outcome.Success? then Dedupe.Return(a.call) else Dedupe.Throw(a.call, a.delOk)))
  {
    KeysDiffer(cfg);
    hide Key;
    hide Handle, EndLate, AtPosition;
  }

  lemma SeenDeath(cfg: Config, ids: Ids, w: Worker, q: nat, finished: bool, event: string, d: Dedupe.State)
    requires SeenAs(cfg, ids, w, event, d)
    ensures SeenAs(cfg, ids, w.(running := w.running - {q}), event,
                   if CallsFor(ids, w, q, event) then Dedupe.Step(d, Dedupe.Die(q, finished)) else d)
  {
  }

  lemma SeenStepFollows(cfg: Config, ids: Ids, w: Worker, a: Action, event: string, d: Dedupe.State)
    requires event != "" && SeenAs(cfg, ids, w, event, d)
    ensures SeenAs(cfg, ids, Next(cfg, ids, w, a), event, SeenAfter(cfg, ids, w, a, event, d))
  {
    KeysDiffer(cfg);
    hide Key;
    hide Begin, End, Step;
    match a {
      case BeginCall(_, _, _, _) => if Delivers(w, a) { SeenBegin(cfg, ids, w, a, event, d); }
      case EndCall(q, _, _, _, _, _) => if q in w.running { SeenEnd(cfg, ids, w, a, event, d); }
      case DieIn(q, finished) => if q in w.running { SeenDeath(cfg, ids, w, q, finished, event, d); }
      case ExpireKey(key) =>
      case Foreign(worker, e, taken) =>
      case Elsewhere(action) =>
    }
  }

  /** The dedupe machine counts what the workers do. */
  lemma SeenStepCounts(cfg: Config, ids: Ids, w: Worker, a: Action, event: string, d: Dedupe.State)
    requires event != "" && SeenAs(cfg, ids, w, event, d)
    ensures var d1 := SeenAfter(cfg, ids, w, a, event, d);
            && Finished(d1) == Finished(d) + (if Finishes(ids, w, a, event) then 1 else 0)
            && d1.openRuns == d.openRuns + (if RunsBlind(ids, w, a, event) then 1 else 0)
            && d1.expiries == d.expiries + (if Expires(cfg, w, a, event) then 1 else 0)
  {
  }

  /** Seen from one event, a run of the workers is a run of the dedupe machine, step by step and count by count. */
  lemma {:induction false} WorkersFollowDedupe(cfg: Config, ids: Ids, w: Worker, actions: seq<Action>, event: string, d: Dedupe.State)
    requires event != "" && SeenAs(cfg, ids, w, event, d)
    ensures var d1 := Dedupe.Run(d, SeenRun(cfg, ids, w, actions, event));
            && SeenAs(cfg, ids, NextAll(cfg, ids, w, actions), event, d1)
            && Finished(d1) == Finished(d) + FinishedRuns(cfg, ids, w, actions, event)
            && d1.openRuns == d.openRuns + BlindRuns(cfg, ids, w, actions, event)
            && d1.expiries == d.expiries + Expiries(cfg, ids, w, actions, event)
    decreases |actions|
  {
    hide SeenAs, Next, SeenStep, Finishes, RunsBlind, Expires, Dedupe.Step;
    if actions != [] {
      SeenStepFollows(cfg, ids, w, actions[0], event, d);
      SeenStepCounts(cfg, ids, w, actions[0], event, d);
      WorkersFollowDedupe(cfg, ids, Next(cfg, ids, w, actions[0]), actions[1..], event, SeenAfter(cfg, ids, w, actions[0], event, d));
    }
  }

  /**
   However deliveries, rebalances, deaths and republished copies interleave, the
   handler of one event comes to its end at most once, plus once for every run
   that the silent store let through and every expiry of its key.
   */
  lemma EffectsAreBounded(cfg: Config, ids: Ids, w: Worker, actions: seq<Action>, event: string)
    requires Start(w) && event != ""
    ensures FinishedRuns(cfg, ids, w, actions, event)
            <= 1 + BlindRuns(cfg, ids, w, actions, event) + Expiries(cfg, ids, w, actions, event)
  {
    WorkersFollowDedupe(cfg, ids, w, actions, event, Dedupe.START);
    Dedupe.CompletionsAreBounded(SeenRun(cfg, ids, w, actions, event));
  }

  // -------------------------------------------------------------- a lost effect

  /** A message alone in its lane and nowhere else. */
  ghost predicate OnlyAt(s: State, tp: Tp, m: Msg, pos: nat) {
    && tp in s.lanes && s.lanes[tp].log == [m] && s.lanes[tp].pos == pos
    && (forall t :: t in s.lanes && t != tp ==> s.lanes[t].log == [])
    && s.retry.log == [] && s.dlq.log == []
    && s.history.origin == [Origin(tp.topic, m.key, m.value)] && m.uid == 0
  }

  lemma ProduceAlone(cfg: Config, s: State, tp: Tp, value: string)
    requires Initial(s) && tp in s.lanes
    ensures var s1 := Step(cfg, s, Produce(tp, None, Some(value), map[]));
            OnlyAt(s1, tp, Msg(None, Some(value), map[], 0), 0) && s1.inflight == map[]
  {
  }

  /** A failure whose copy, if there is one, does not get out leaves the message where it was; a success takes it. */
  lemma HandleAlone(cfg: Config, s: State, tp: Tp, m: Msg, outcome: Outcome, sent: Send)
    requires OnlyAt(s, tp, m, 0) && m.value.Some? && (if outcome.Success? then sent.Acked? else sent.Lost?)
    ensures OnlyAt(Handle(cfg, s, tp, outcome, 0, sent), tp, m, if outcome.Success? then 1 else 0)
  {
    hide CopyHeaders, Tally;
  }

  /** The condition can be met: a call throws while the store is gone, and the next delivery drops the message. */
  lemma FailedDelLoses(cfg: Config, ids: Ids, w: Worker, tp: Tp, value: string, kind: ErrorKind)
    returns (produced: Worker, called: Worker, failed: Worker, dropped: Worker)
    requires Start(w) && tp in w.s.lanes && ids(value) != ""
    ensures produced == Next(cfg, ids, w, Elsewhere(Produce(tp, None, Some(value), map[])))
    ensures called == Next(cfg, ids, produced, BeginCall(0, tp, true, false))
    ensures failed == Next(cfg, ids, called, EndCall(0, Failure(kind, ""), false, 0, Lost, None))
    ensures Entered(failed.s, 0) && Kept(ids, failed, 0) && Stale(cfg, ids, failed, ids(value))
    ensures dropped == Next(cfg, ids, failed, BeginCall(1, tp, true, false))
    ensures Entered(dropped.s, 0) && !Kept(ids, dropped, 0)
  {
    hide Handle, Step;
    var m := Msg(None, Some(value), map[], 0);
    ProduceAlone(cfg, w.s, tp, value);
    produced := Next(cfg, ids, w, Elsewhere(Produce(tp, None, Some(value), map[])));
    called := Next(cfg, ids, produced, BeginCall(0, tp, true, false));
    HandleAlone(cfg, called.s, tp, m, Failure(kind, ""), Lost);
    failed := Next(cfg, ids, called, EndCall(0, Failure(kind, ""), false, 0, Lost, None));
    assert OnlyAt(failed.s, tp, m, 0);
    assert LiveCopy(failed.s, OnMain(tp, 0), 0);
    HandleAlone(cfg, failed.s, tp, m, Success, Acked);
    dropped := Next(cfg, ids, failed, BeginCall(1, tp, true, false));
    assert OnlyAt(dropped.s, tp, m, 1);
  }
}
