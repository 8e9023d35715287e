/** The life of one order under any order and repetition of its commands. */
module Lifecycle {
  import opened OrderBook
  import opened Ledger
  import opened LedgerFacts
  import opened SettleFacts
  import opened Settlement
  import opened Invariant
  import opened SubmitProof
  import opened Exchange

  lemma RunOne(ms: Markets, s: State, a: Action)
    ensures Run(ms, s, [a]) == Step(ms, s, a)
  {
    assert [a][1..] == [];
  }

  lemma {:induction false} RunAppend(ms: Markets, s: State, a: seq<Action>, b: seq<Action>)
    ensures Run(ms, s, a + b) == Run(ms, Run(ms, s, a), b)
    decreases |a|
  {
    hide Step;
    if a == [] {
      assert a + b == b;
    } else {
      assert (a + b)[0] == a[0] && (a + b)[1..] == a[1..] + b;
      RunAppend(ms, Step(ms, s, a[0]), a[1..], b);
    }
  }

  /**
   At any two moments of any run: what an order has filled and what it has left
   make up its quantity, its fills never shrink, its terms never change, and
   once FILLED or CANCELLED it stays exactly as it is.
   */
  lemma OrderMovesForward(ms: Markets, s: State, past: seq<Action>, more: seq<Action>, id: OrderId)
    requires Initial(ms, s) && id in Run(ms, s, past).db.orders
    ensures id in Run(ms, s, past + more).db.orders
    ensures var o, o1 := Run(ms, s, past).db.orders[id], Run(ms, s, past + more).db.orders[id];
            && o.filledQty + o.leaveQty == o.quantity && 0 <= o.leaveQty && 0 <= o.filledQty
            && o.filledQty <= o1.filledQty && Terms(o1) == Terms(o)
            && (Terminal(o.status) ==> o1 == o)
  {
    hide Run, Initial;
    InitialInv(ms, s);
    RunKeepsAll(ms, s, past);
    RunKeepsAll(ms, Run(ms, s, past), more);
    RunAppend(ms, s, past, more);
    assert OrderOk(ms, Run(ms, s, past).db.orders[id]);
  }

  /** A committed CANCEL gives back exactly what the order had reserved, whether its SUBMIT was processed before or not. */
  lemma CancelReleasesReservation(ms: Markets, s: State, c: Command, k: WalletKey)
    requires Inv(ms, s) && c.CancelOrder? && SettleCancel(ms, s, c).outcome == Committed
    ensures c.orderId in s.db.orders && s.db.orders[c.orderId].market in ms
    ensures var o := s.db.orders[c.orderId];
            var reserved := ReservedFor(ms[o.market], o, k);
            var after := SettleCancel(ms, s, c).state.db;
            && LockedAt(after.wallets, k) == LockedAt(s.db.wallets, k) - reserved
            && BalanceAt(after.wallets, k) == BalanceAt(s.db.wallets, k) + reserved
            && c.orderId in after.orders && after.orders[c.orderId] == o.(status := CANCELLED)
  {
    hide CancelInBook, CancelEvents, RecordsOk, BooksOk, LocksMatch;
    assert OrderOk(ms, s.db.orders[c.orderId]);
  }

  /** After that no command for the order does anything: nothing is released twice, and a late SUBMIT is skipped. */
  lemma FinishedIsFinal(ms: Markets, s: State, c: Command)
    requires c.orderId in s.db.orders && Terminal(s.db.orders[c.orderId].status)
    ensures Deliver(ms, s, c) == Settled(s, Skipped)
  {
  }

  /**
   Which commands are skipped: exactly those whose order or market is not there
   or whose order is FILLED or CANCELLED, and a SUBMIT under another command id
   than the order's own.
   */
  lemma SkippedExactly(ms: Markets, s: State, c: Command)
    ensures Deliver(ms, s, c).outcome == Skipped <==>
              || c.orderId !in s.db.orders
              || s.db.orders[c.orderId].status == FILLED || s.db.orders[c.orderId].status == CANCELLED
              || (if c.Submit? then c.symbol else s.db.orders[c.orderId].market) !in ms
              || (var own := s.db.orders[c.orderId].commandId; c.Submit? && own.Some? && own.value != c.commandId)
    ensures Deliver(ms, s, c).outcome == Skipped ==> Deliver(ms, s, c).state == s
  {
    hide Add, SettleFills, SweepLevels, FinishLimit, FinishMarket, SubmitEvents, MarketLevels, Release, CancelInBook, CancelEvents;
  }

  /** A SUBMIT is refused exactly when it is a limit order that rests already. */
  lemma RefusedExactly(ms: Markets, s: State, c: Command)
    ensures Deliver(ms, s, c).outcome == Outcome.Refused <==>
              && c.Submit? && SubmitTarget(ms, s.db, c).Some?
              && s.db.orders[c.orderId].orderType.LIMIT? && s.db.orders[c.orderId].price.Some?
              && InBook(BookOf(s.books, c.symbol), c.orderId)
  {
    hide InBook, Match, Insert, SettleFills, SweepLevels, FinishLimit, FinishMarket, SubmitEvents, MarketLevels, Release, CancelInBook, CancelEvents;
  }

  /** CANCEL before SUBMIT: one release, no trade, no entry in the book, and the next command for the order changes nothing. */
  lemma CancelOvertakesSubmit(ms: Markets, s: State, cancel: Command, submit: Command, k: WalletKey)
    requires Inv(ms, s) && cancel.CancelOrder? && submit.Submit? && submit.orderId == cancel.orderId
    requires SettleCancel(ms, s, cancel).outcome == Committed
    ensures var s1 := Deliver(ms, s, cancel).state;
            && Deliver(ms, s1, submit) == Settled(s1, Skipped) && Deliver(ms, s1, cancel) == Settled(s1, Skipped)
            && s1.db.trades == s.db.trades
            && LockedAt(s1.db.wallets, k) + BalanceAt(s1.db.wallets, k) == LockedAt(s.db.wallets, k) + BalanceAt(s.db.wallets, k)
            && !InBook(BookOf(s1.books, s.db.orders[cancel.orderId].market), cancel.orderId)
  {
    CancelReleasesReservation(ms, s, cancel, k);
    var s1 := Deliver(ms, s, cancel).state;
    FinishedIsFinal(ms, s1, submit);
    FinishedIsFinal(ms, s1, cancel);
    var o := s.db.orders[cancel.orderId];
    BookOfOk(s.db.orders, s.books, o.market);
    BookLink.CancelKeepsBookOk(s.db.orders, o.market, BookOf(s.books, o.market), cancel.orderId);
  }

  // -------------------------------------------------------- over whole runs

  /** This step is a CANCEL of the order that goes through. */
  ghost predicate Cancels(ms: Markets, s: State, a: Action, id: OrderId) {
    && a.Process? && a.command.CancelOrder? && a.command.orderId == id && Published(s.db, a.command)
    && SettleCancel(ms, s, a.command).outcome == Committed
  }

  ghost function CancelCount(ms: Markets, s: State, actions: seq<Action>, id: OrderId): nat
    decreases |actions|
  {
    if actions == [] then 0
    else (if Cancels(ms, s, actions[0], id) then 1 else 0) + CancelCount(ms, Step(ms, s, actions[0]), actions[1..], id)
  }

  ghost predicate Finished(s: State, id: OrderId) {
    id in s.db.orders && Terminal(s.db.orders[id].status)
  }

  lemma FinishedStays(ms: Markets, s: State, a: Action, id: OrderId)
    requires Inv(ms, s) && Finished(s, id)
    ensures Finished(Step(ms, s, a), id)
  {
    hide Inv, Conserved, Step;
    StepKeepsAll(ms, s, a);
  }

  lemma CancelFinishes(ms: Markets, s: State, c: Command)
    requires c.CancelOrder? && SettleCancel(ms, s, c).outcome == Committed
    ensures !Finished(s, c.orderId) && Finished(SettleCancel(ms, s, c).state, c.orderId)
  {
    hide CancelInBook, CancelEvents, Release;
  }

  lemma StepFinished(ms: Markets, s: State, a: Action, id: OrderId)
    requires Inv(ms, s)
    ensures Finished(s, id) ==> Finished(Step(ms, s, a), id) && !Cancels(ms, s, a, id)
    ensures Cancels(ms, s, a, id) ==> Finished(Step(ms, s, a), id)
  {
    hide Inv, Finished, SettleCancel, SettleSubmit, BooksAfterFailure, Reboot, SubmitOrder, RequestCancel;
    if Finished(s, id) {
      FinishedStays(ms, s, a, id);
    }
    if Cancels(ms, s, a, id) {
      CancelFinishes(ms, s, a.command);
    }
  }

  /**
   However SUBMITs and CANCELs of an order are ordered and repeated, between
   aborts and restarts too, at most one CANCEL of it goes through, and none once
   it is over: its reservation is given back once.
   */
  lemma {:induction false} ReleasedOnce(ms: Markets, s: State, actions: seq<Action>, id: OrderId)
    requires Inv(ms, s)
    ensures CancelCount(ms, s, actions, id) <= if Finished(s, id) then 0 else 1
    ensures Finished(s, id) ==> Finished(Run(ms, s, actions), id)
    decreases |actions|
  {
    hide Inv, Cancels, Step, Finished;
    if actions != [] {
      StepFinished(ms, s, actions[0], id);
      InvKept(ms, s, actions[0]);
      ReleasedOnce(ms, Step(ms, s, actions[0]), actions[1..], id);
    }
  }

  lemma InvKept(ms: Markets, s: State, a: Action)
    requires Inv(ms, s)
    ensures Inv(ms, Step(ms, s, a))
  {
    StepKeepsAll(ms, s, a);
  }

  /** And it never rests in any book again. */
  lemma FinishedNeverRests(ms: Markets, s: State, past: seq<Action>, more: seq<Action>, id: OrderId, symbol: Symbol)
    requires Initial(ms, s) && Finished(Run(ms, s, past), id)
    ensures !InBook(BookOf(Run(ms, s, past + more).books, symbol), id)
  {
    hide Run, Initial;
    InitialInv(ms, s);
    RunKeepsAll(ms, s, past);
    RunKeepsAll(ms, Run(ms, s, past), more);
    RunAppend(ms, s, past, more);
    var r := Run(ms, s, past + more);
    BookOfOk(r.db.orders, r.books, symbol);
    BookLink.MarketOrderNotInBook(r.db.orders, symbol, BookOf(r.books, symbol), id);
  }
}
