/**
 The dedupe wrapper: take a key in a shared store, run the handler, give the
 key back if the handler throws. Replicas run it at the same time, the key can
 expire, and the store can be unreachable.
 */
module Dedupe {
  import opened Wrappers

  // ------------------------------------------------------------- one call

  /** Reply of `SET key NX`: taken, already there, or no reply (the key may have been set all the same). */
  datatype Reply = Taken | Present | NoReply

  datatype Result = Skipped | Completed | Thrown

  function KeyText(worker: string, eventId: string): string {
    "dedupe:" + worker + ":" + eventId
  }

  function FirstColon(s: string): nat {
    if s == "" || s[0] == ':' then 0 else 1 + FirstColon(s[1..])
  }

  lemma {:induction false} ColonAfter(v: string, a: string)
    requires ':' !in v
    ensures FirstColon(v + ":" + a) == |v|
    decreases |v|
  {
    if v != "" {
      ColonAfter(v[1..], a);
      assert (v + ":" + a)[1..] == v[1..] + ":" + a;
      assert (v + ":" + a)[0] == v[0] && v[0] in v;
    }
  }

  /** For workers without a colon in their name a key belongs to one worker and one event. */
  lemma KeysAreApart(v: string, w: string, a: string, b: string)
    requires ':' !in v && ':' !in w && KeyText(v, a) == KeyText(w, b)
    ensures v == w && a == b
  {
    var k := KeyText(v, a);
    assert |"dedupe:"| == 7;
    assert k[7..] == v + ":" + a && k[7..] == w + ":" + b;
    ColonAfter(v, a);
    ColonAfter(w, b);
    assert v == k[7..][..|v|] && w == k[7..][..|w|];
    assert a == k[7..][|v| + 1..] && b == k[7..][|w| + 1..];
  }

  lemma WorkersKeepApart(v: string, w: string, a: string, b: string)
    requires ':' !in v && ':' !in w && v != w
    ensures KeyText(v, a) != KeyText(w, b)
  {
    if KeyText(v, a) == KeyText(w, b) {
      KeysAreApart(v, w, a, b);
    }
  }

  /** Within one worker the key is the event, whatever the name. */
  lemma SameWorkerSameEvent(w: string, a: string, b: string)
    requires KeyText(w, a) == KeyText(w, b)
    ensures a == b
  {
    var k := KeyText(w, a);
    assert |"dedupe:"| == 7;
    assert a == k[7 + |w| + 1..] && b == k[7 + |w| + 1..];
  }

  /** The shared store. */
  class DedupeStore {
    var keys: set<string>

    constructor ()
      ensures keys == {}
    {
      keys := {};
    }

    method SetNx(key: string, up: bool) returns (reply: Reply)
      modifies this
      ensures reply == (if !up then NoReply else if key in old(keys) then Present else Taken)
      ensures keys == if up then old(keys) + {key} else old(keys)
    {
      if !up {
        return NoReply;
      }
      reply := if key in keys then Present else Taken;
      keys := keys + {key};
    }

    method Del(key: string, up: bool)
      modifies this
      ensures keys == if up then old(keys) - {key} else old(keys)
    {
      if up {
        keys := keys - {key};
      }
    }
  }

  /** A finished call of the wrapper. */
  datatype DoneCall = DoneCall(worker: string, event: string, handlerOk: bool, setUp: bool, delUp: bool)

  /** The keys after a call, as `WithDedupe` leaves them. */
  function KeysAfter(keys: set<string>, c: DoneCall): set<string> {
    if c.event == "" || !c.setUp then keys
    else
      var key := KeyText(c.worker, c.event);
      if key !in keys && !c.handlerOk && c.delUp then keys - {key} else keys + {key}
  }

  function KeysAfterAll(calls: seq<DoneCall>): set<string> {
    if calls == [] then {} else KeysAfter(KeysAfterAll(calls[..|calls| - 1]), calls[|calls| - 1])
  }

  /** No call of this worker was for this event; worker names have no colon. */
  predicate Unseen(calls: seq<DoneCall>, worker: string, event: string) {
    && ':' !in worker
    && forall i :: 0 <= i < |calls| ==> ':' !in calls[i].worker && (calls[i].worker != worker || calls[i].event != event)
  }

  /** A key is there only through a call for its own worker and event. */
  lemma {:induction false} KeysComeFromCalls(calls: seq<DoneCall>, worker: string, event: string)
    requires Unseen(calls, worker, event)
    ensures KeyText(worker, event) !in KeysAfterAll(calls)
    decreases |calls|
  {
    hide KeyText;
    if calls != [] {
      var init, last := calls[..|calls| - 1], calls[|calls| - 1];
      KeysComeFromCalls(init, worker, event);
      if KeyText(worker, event) == KeyText(last.worker, last.event) {
        KeysAreApart(worker, last.worker, event, last.event);
      }
    }
  }

  /**
   `withDedupe` with nobody else around: the handler runs unless the key is
   there, and a key is left behind exactly by a handler that returned, or one
   that threw while the store was gone. An empty id is no id. A call for an event
   that no call of this worker has seen is not skipped, whatever calls for other
   events and of other workers came before it.
   */
  method WithDedupe(store: DedupeStore, eventId: Option<string>, worker: string, handlerOk: bool, setUp: bool, delUp: bool)
    returns (result: Result)
    modifies store
    ensures eventId.None? || eventId.value == "" || !setUp ==>
              result == (if handlerOk then Completed else Thrown) && store.keys == old(store.keys)
    ensures eventId.Some? && eventId.value != "" && setUp ==>
              var key := KeyText(worker, eventId.value);
              && (result.Skipped? <==> key in old(store.keys))
              && (!result.Skipped? ==> result == if handlerOk then Completed else Thrown)
              && store.keys == if result.Thrown? && delUp then old(store.keys) - {key} else old(store.keys) + {key}
    ensures store.keys == KeysAfter(old(store.keys), DoneCall(worker, eventId.GetOr(""), handlerOk, setUp, delUp))
    ensures forall calls :: old(store.keys) == KeysAfterAll(calls) && Unseen(calls, worker, eventId.GetOr("")) ==> !result.Skipped?
  {
    forall calls | old(store.keys) == KeysAfterAll(calls) && Unseen(calls, worker, eventId.GetOr(""))
      ensures KeyText(worker, eventId.GetOr("")) !in old(store.keys)
    {
      KeysComeFromCalls(calls, worker, eventId.GetOr(""));
    }
    if eventId.None? || eventId.value == "" {
      return if handlerOk then Completed else Thrown;
    }
    var key := KeyText(worker, eventId.value);
    var acquired := store.SetNx(key, setUp);
    if acquired == NoReply {
      return if handlerOk then Completed else Thrown;
    }
    if acquired != Taken {
      return Skipped;
    }
    if handlerOk {
      return Completed;
    }
    store.Del(key, delUp);
    result := Thrown;
  }

  // -------------------------------------------------- one event, many replicas

  /** A call that is running its handler: as owner of the key, or because the store did not answer. */
  datatype Role = Owner | FailOpen

  type Call = nat

  datatype State = State(held: bool, running: map<Call, Role>, ownerDone: nat, openDone: nat, openRuns: nat, expiries: nat)

  const START := State(false, map[], 0, 0, 0, 0)

  datatype Action =
    | Begin(call: Call, up: bool, setAnyway: bool)   // not up: no reply; the key may have been set anyway
    | Return(call: Call)
    | Throw(call: Call, delOk: bool)
    | Die(call: Call, finished: bool)                // the replica is gone, before or after the effect; its key stays
    | Expire

  function Drop(m: map<Call, Role>, call: Call): map<Call, Role> {
    m - {call}
  }

  /** The handler is through; the key stays. */
  function Finish(s: State, call: Call): State {
    if call !in s.running then s
    else if s.running[call].Owner? then s.(running := Drop(s.running, call), ownerDone := s.ownerDone + 1)
    else s.(running := Drop(s.running, call), openDone := s.openDone + 1)
  }

  function Step(s: State, a: Action): State {
    match a {
      case Begin(call, up, setAnyway) =>
        if call in s.running then s
        else if !up then s.(running := s.running[call := FailOpen], openRuns := s.openRuns + 1, held := s.held || setAnyway)
        else if s.held then s
        else s.(held := true, running := s.running[call := Owner])
      case Return(call) => Finish(s, call)
      case Throw(call, delOk) =>
        if call !in s.running then s
        else if s.running[call].Owner? && delOk then s.(running := Drop(s.running, call), held := false)
        else s.(running := Drop(s.running, call))
      case Die(call, finished) => if finished then Finish(s, call) else s.(running := Drop(s.running, call))
      case Expire => if s.held then s.(held := false, expiries := s.expiries + 1) else s
    }
  }

  function Run(s: State, actions: seq<Action>): State
    decreases |actions|
  {
    if actions == [] then s else Run(Step(s, actions[0]), actions[1..])
  }

  function Calls(s: State, role: Role): set<Call> {
    set c | c in s.running && s.running[c] == role
  }

  /**
   Running owners, finished owners and a free key together never exceed one
   more than the expiries: a key that a late owner takes away from its
   successor was itself freed by an expiry.
   */
  ghost predicate Ok(s: State) {
    && |Calls(s, Owner)| + s.ownerDone + (if s.held then 0 else 1) <= 1 + s.expiries
    && |Calls(s, FailOpen)| + s.openDone <= s.openRuns
  }

  lemma CallsAdded(s: State, call: Call, role: Role, s1: State)
    requires call !in s.running && s1.running == s.running[call := role]
    ensures Calls(s1, role) == Calls(s, role) + {call}
    ensures forall other :: other != role ==> Calls(s1, other) == Calls(s, other)
    ensures |Calls(s1, role)| == |Calls(s, role)| + 1
  {
  }

  lemma CallsDropped(s: State, call: Call, s1: State)
    requires s1.running == Drop(s.running, call)
    ensures forall role :: |Calls(s1, role)| <= |Calls(s, role)|
    ensures call in s.running ==> |Calls(s1, s.running[call])| == |Calls(s, s.running[call])| - 1
  {
    forall role ensures Calls(s1, role) == Calls(s, role) - {call} && |Calls(s1, role)| <= |Calls(s, role)| {
      assert Calls(s1, role) == Calls(s, role) - {call};
    }
    if call in s.running {
      assert call in Calls(s, s.running[call]);
    }
  }

  lemma StepOk(s: State, a: Action)
    requires Ok(s)
    ensures Ok(Step(s, a))
  {
    var s1 := Step(s, a);
    match a {
      case Begin(call, up, setAnyway) =>
        if call !in s.running && (!up || !s.held) {
          CallsAdded(s, call, if up then Owner else FailOpen, s1);
        }
      case Return(call) => CallsDropped(s, call, s1);
      case Throw(call, delOk) => CallsDropped(s, call, s1);
      case Die(call, finished) => CallsDropped(s, call, s1);
      case Expire => assert Calls(s1, Owner) == Calls(s, Owner) && Calls(s1, FailOpen) == Calls(s, FailOpen);
    }
  }

  lemma {:induction false} RunOk(s: State, actions: seq<Action>)
    requires Ok(s)
    ensures Ok(Run(s, actions))
    decreases |actions|
  {
    if actions != [] {
      StepOk(s, actions[0]);
      RunOk(Step(s, actions[0]), actions[1..]);
    }
  }

  /**
   However the replicas interleave, one event's handler completes at most once,
   plus once for every run that the unreachable store let through and every
   expiry of the key.
   */
  lemma CompletionsAreBounded(actions: seq<Action>)
    ensures var s := Run(START, actions); s.ownerDone + s.openDone <= 1 + s.openRuns + s.expiries
  {
    assert Calls(START, Owner) == {} && Calls(START, FailOpen) == {};
    RunOk(START, actions);
  }

  /** The bound is reached: an expiry during a run does let a second one complete. */
  lemma ExpiryLetsASecondComplete()
    ensures var s := Run(START, [Begin(0, true, false), Expire, Begin(1, true, false), Return(0), Return(1)]);
            s.ownerDone == 2 && s.expiries == 1 && s.openRuns == 0
  {
  }

  /** After an owner threw, the next delivery runs its handler if the key was given back, and otherwise exactly if the key is gone. */
  lemma ThrowLetsNextRun(s: State, call: Call, delOk: bool, next: Call)
    requires call in s.running && s.running[call].Owner? && next != call && next !in s.running
    ensures var t := Step(s, Throw(call, delOk));
            var u := Step(t, Begin(next, true, false));
            next in u.running <==> delOk || !s.held
  {
  }
}

