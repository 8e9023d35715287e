/**
 Effectively-once settlement. The relay may publish a command again and again
 and the matcher may restart; as long as settlements commit, the repeats change
 nothing and the books stay exact.
 */
module Once {
  import opened OrderBook
  import opened Ledger
  import opened SettleFacts
  import opened Settlement
  import opened Invariant
  import opened BookLink
  import opened Exchange
  import opened InSync
  import opened Reboots

  /**
   Runs in which no settlement is aborted or lost: published commands are
   processed in any order and any number of times, and the matcher restarts
   whenever no SUBMIT of a limit order is outstanding.
   */
  ghost predicate Committing(ms: Markets, s: State, actions: seq<Action>)
    decreases |actions|
  {
    actions == [] ||
    (&& (match actions[0]
           case Process(c) => Published(s.db, c) && Deliver(ms, s, c).outcome != Aborted
           case Place(_, _, _, _, _) => true
           case AskCancel(_, _, _) => true
           case Fail(_, _) => false
           case Restart => NoneOutstanding(s))
     && Committing(ms, Step(ms, s, actions[0]), actions[1..]))
  }

  /** The run without the commands that were processed before. */
  function FirstsOnly(actions: seq<Action>, seen: set<Command>): seq<Action>
    decreases |actions|
  {
    if actions == [] then []
    else if actions[0].Process? && actions[0].command in seen then FirstsOnly(actions[1..], seen)
    else [actions[0]] + FirstsOnly(actions[1..], if actions[0].Process? then seen + {actions[0].command} else seen)
  }

  function Processed(actions: seq<Action>): set<Command> {
    set i | 0 <= i < |actions| && actions[i].Process? :: actions[i].command
  }

  lemma ProcessedUnfold(actions: seq<Action>)
    requires actions != []
    ensures Processed(actions) == Processed(actions[1..]) + if actions[0].Process? then {actions[0].command} else {}
  {
  }

  /**
   Effectively once: erasing every repeated command from a committing run gives
   the same wallets, orders, trades, outbox and books, restarts included, and
   the books end up exact.
   */
  lemma {:induction false} RepeatsErased(ms: Markets, s: State, seen: set<Command>, actions: seq<Action>)
    requires Sync(ms, s, seen) && Committing(ms, s, actions)
    ensures Run(ms, s, actions) == Run(ms, s, FirstsOnly(actions, seen))
    ensures Sync(ms, Run(ms, s, actions), seen + Processed(actions))
    decreases |actions|
  {
    hide Sync, NoneOutstanding, Deliver, SubmitOrder, RequestCancel, Reboot, BooksAfterFailure;
    if actions == [] {
      assert seen + Processed(actions) == seen;
    } else {
      var a := actions[0];
      var s1 := Step(ms, s, a);
      ProcessedUnfold(actions);
      if a.Process? && a.command in seen {
        RepeatIsNoop(ms, s, seen, a.command);
        assert s1 == s;
        RepeatsErased(ms, s, seen, actions[1..]);
        assert seen + Processed(actions) == seen + Processed(actions[1..]);
      } else {
        var seen1 := if a.Process? then seen + {a.command} else seen;
        if a.Process? {
          ProcessSync(ms, s, seen, a.command);
        } else if a.Restart? {
          RestartSync(ms, s, seen);
        } else {
          ApiSync(ms, s, seen, a);
        }
        RepeatsErased(ms, s1, seen1, actions[1..]);
        var firsts := FirstsOnly(actions, seen);
        assert firsts[0] == a && firsts[1..] == FirstsOnly(actions[1..], seen1);
        assert seen1 + Processed(actions[1..]) == seen + Processed(actions);
      }
    }
  }

  lemma EffectivelyOnce(ms: Markets, s: State, actions: seq<Action>)
    requires Initial(ms, s) && Committing(ms, s, actions)
    ensures Run(ms, s, actions) == Run(ms, s, FirstsOnly(actions, {}))
  {
    InitialSync(ms, s);
    RepeatsErased(ms, s, {}, actions);
  }

  /**
   In a committing run the book holds exactly the live limit orders whose SUBMIT
   was processed, each with its database leaveQty, and is never crossed.
   */
  lemma BookIsExact(ms: Markets, s: State, actions: seq<Action>, id: OrderId)
    requires Initial(ms, s) && Committing(ms, s, actions)
    requires id in Run(ms, s, actions).db.orders
    ensures var r := Run(ms, s, actions); var o := r.db.orders[id]; var b := BookOf(r.books, o.market);
            && o.commandId.Some?
            && (Rests(b.Queue(o.side), id) <==>
                  !Terminal(o.status) && o.orderType.LIMIT? && SubmitOf(r.db.orders, id) in Processed(actions))
            && (Rests(b.Queue(o.side), id) ==> Resting(b.Queue(o.side), id) == o.leaveQty)
            && Uncrossed(b)
  {
    InitialSync(ms, s);
    RepeatsErased(ms, s, {}, actions);
    var r := Run(ms, s, actions);
    var o := r.db.orders[id];
    var q := BookOf(r.books, o.market).Queue(o.side);
    assert {} + Processed(actions) == Processed(actions);
    BookOfSync(ms, r, Processed(actions), o.market);
    assert OrderOk(ms, o) && o.commandId.Some?;
    if Rests(q, id) {
      var e := RestingEntry(q, id);
      assert EntryOk(r.db.orders, o.market, o.side, e);
      var i :| 0 <= i < |q| && q[i] == e;
      RestingAt(q, i);
    }
    if SubmitOf(r.db.orders, id) in Processed(actions) {
      assert Handled(r, SubmitOf(r.db.orders, id));
    }
  }

  /** Every live limit order has had its SUBMIT processed. */
  ghost predicate AllSubmitted(orders: map<OrderId, Order>, processed: set<Command>) {
    forall id :: id in orders && Replayable(orders[id]) ==> orders[id].commandId.Some? && SubmitOf(orders, id) in processed
  }

  /** In committing runs the two ways to say that nothing is outstanding agree. */
  lemma OutstandingMeans(ms: Markets, s: State, actions: seq<Action>)
    requires Initial(ms, s) && Committing(ms, s, actions)
    ensures NoneOutstanding(Run(ms, s, actions)) <==> AllSubmitted(Run(ms, s, actions).db.orders, Processed(actions))
  {
    hide Run, Initial, Committing, Processed;
    var r := Run(ms, s, actions);
    forall id | id in r.db.orders && Replayable(r.db.orders[id])
      ensures r.db.orders[id].commandId.Some? && (RestsInBook(r, id) <==> SubmitOf(r.db.orders, id) in Processed(actions))
    {
      BookIsExact(ms, s, actions, id);
    }
  }

  /**
   After a committing run with no SUBMIT of a limit order outstanding, a restart
   gives every book the same resting quantities and the same depth snapshot,
   and the very same queue if and only if ids ascend within each price.
   */
  lemma RestartRestoresBooks(ms: Markets, s: State, actions: seq<Action>, symbol: Symbol, side: Side)
    requires Initial(ms, s) && Committing(ms, s, actions) && AllSubmitted(Run(ms, s, actions).db.orders, Processed(actions))
    ensures var r := Run(ms, s, actions);
            var q := BookOf(r.books, symbol).Queue(side);
            var q1 := BookOf(Step(ms, r, Restart).books, symbol).Queue(side);
            && (forall id :: Resting(q1, id) == Resting(q, id))
            && TopLevels(q1) == TopLevels(q)
            && (OldestIdFirst(q) <==> q1 == q)
  {
    hide Run, Reboot, Levels, Initial, Committing, Processed, Resting, TopLevels, QueueOk, OldestIdFirst, SameEntries;
    InitialSync(ms, s);
    RepeatsErased(ms, s, {}, actions);
    OutstandingMeans(ms, s, actions);
    var r := Run(ms, s, actions);
    assert Quiet(ms, r);
    var q := BookOf(r.books, symbol).Queue(side);
    var q1 := BookOf(Step(ms, r, Restart).books, symbol).Queue(side);
    RestartRestoresEntries(ms, r, symbol, side);
    ReplayInIdOrder(ms, r, symbol, side);
    RebuiltQueueAlike(side, q, q1);
  }
}
