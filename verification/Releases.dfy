/** What committed CANCELs of one order gave back over a run. */
module Releases {
  import opened Wrappers
  import opened OrderBook
  import opened Ledger
  import opened LedgerFacts
  import opened SettleFacts
  import opened Settlement
  import opened Invariant
  import opened BookLink
  import opened SubmitProof
  import opened Exchange
  import opened Lifecycle
  import opened CommandRows

  /** What the committed CANCELs of the order took out of `locked` in one wallet. */
  ghost function ReleasedIn(ms: Markets, s: State, actions: seq<Action>, id: OrderId, k: WalletKey): int
    decreases |actions|
  {
    if actions == [] then 0
    else
      var s1 := Step(ms, s, actions[0]);
      (if Cancels(ms, s, actions[0], id) then LockedAt(s.db.wallets, k) - LockedAt(s1.db.wallets, k) else 0)
      + ReleasedIn(ms, s1, actions[1..], id, k)
  }

  /** What the order would reserve for its leaveQty if it were live. */
  function LeftAt(m: Market, o: Order, k: WalletKey): int {
    ReservedFor(m, o.(status := OPEN), k)
  }

  ghost predicate CancelledLimit(s: State, id: OrderId) {
    id in s.db.orders && s.db.orders[id].orderType.LIMIT? && s.db.orders[id].status == CANCELLED
  }

  lemma TradedNotCancelled(o: Order, qty: int)
    requires !Terminal(o.status)
    ensures Traded(o, qty).status != CANCELLED
  {
  }

  /** A SUBMIT cancels no limit order. */
  lemma SubmitCancelsNone(ms: Markets, s: State, c: Command, id: OrderId)
    requires Inv(ms, s) && c.Submit? && CommandOk(s.db.orders, c) && !Finished(s, id)
    ensures !CancelledLimit(SettleSubmit(ms, s, c).state, id)
  {
    SubmitKeeps(ms, s, c);
    OrderWasThere(ms, s, c, id);
    hide Inv, SettleLimit, SettleMarket, Conserved, OnlyTraded;
    var s1 := SettleSubmit(ms, s, c).state;
    if SubmitTarget(ms, s.db, c).Some? && SettleSubmit(ms, s, c).outcome == Committed && id in s1.db.orders {
      var t := SubmitTarget(ms, s.db, c).value;
      TargetOk(ms, s, c);
      SubmitOrders(ms, s, ms[c.symbol], t, c.commandId);
      assert Terms(s1.db.orders[id]) == Terms(s.db.orders[id]);
      if id != t.id {
        var fills :| OnlyTraded(s.db.orders, s1.db.orders, t.id, fills);
        OtherNotCancelled(s.db.orders, s1.db.orders, t.id, fills, id);
      }
    }
  }

  lemma OtherNotCancelled(before: map<OrderId, Order>, after: map<OrderId, Order>, taker: OrderId, fills: seq<Fill>, id: OrderId)
    requires OnlyTraded(before, after, taker, fills) && id in before && id != taker && !Terminal(before[id].status)
    ensures id in after && after[id].status != CANCELLED
  {
    TradedNotCancelled(before[id], Filled(fills, id));
  }

  lemma TargetOk(ms: Markets, s: State, c: Command)
    requires Inv(ms, s) && c.Submit? && CommandOk(s.db.orders, c) && SubmitTarget(ms, s.db, c).Some?
    ensures var t := SubmitTarget(ms, s.db, c).value;
            && TakerOk(ms, ms[c.symbol], s.db.orders, t) && t.id == c.orderId && t.row.commandId == Some(c.commandId)
            && ms[c.symbol].symbol == c.symbol
  {
    assert OrderOk(ms, s.db.orders[c.orderId]);
  }

  lemma SubmitOrders(ms: Markets, s: State, m: Market, t: Taker, cmd: CommandId)
    requires Inv(ms, s) && TakerOk(ms, m, s.db.orders, t) && t.row.commandId == Some(cmd)
    ensures var r := if t.row.orderType.LIMIT? then SettleLimit(s, m, t, m.symbol, cmd) else SettleMarket(s, m, t, m.symbol, cmd);
            r.outcome == Committed ==>
              && (exists fills :: OnlyTraded(s.db.orders, r.state.db.orders, t.id, fills))
              && (t.row.orderType.LIMIT? ==> t.id in r.state.db.orders && r.state.db.orders[t.id].status != CANCELLED)
  {
    hide Inv, SettleLimit, SettleMarket, Add, OnlyTraded, SettleFills, Kept, Walk;
    if t.row.orderType.LIMIT? {
      if SettleLimit(s, m, t, m.symbol, cmd).outcome == Committed {
        CommittedLimitSettled(ms, s, m, t, cmd);
        SettleLimitCommits(ms, s, m, t, cmd);
      }
    } else if SettleMarket(s, m, t, m.symbol, cmd).outcome == Committed {
      SettleMarketCommits(ms, s, m, t, cmd);
    }
  }

  /** A settlement commits no SUBMIT row, so every order it leaves was there before. */
  lemma OrderWasThere(ms: Markets, s: State, c: Command, id: OrderId)
    requires Inv(ms, s) && c.Submit? && CommandOk(s.db.orders, c)
    ensures id in SettleSubmit(ms, s, c).state.db.orders ==> id in s.db.orders
  {
    hide SettleSubmit, Inv, Conserved, Progress, CommandOk;
    SubmitKeeps(ms, s, c);
    DeliverAppends(ms, s, c);
    var r := SettleSubmit(ms, s, c).state;
    var before, after := s.db.outbox, r.db.outbox;
    if id in r.db.orders {
      var row := SubmitRow(ms, r, id);
      CommandWasThere(before, after, row);
      RowKnown(ms, s, row.command);
    }
  }

  lemma CommandWasThere(before: seq<Payload>, after: seq<Payload>, row: Payload)
    requires AppendsEvents(before, after) && row.CommandRow? && row in after
    ensures row in before
  {
    var more := after[|before|..];
    assert after == before + more;
  }

  /** The SUBMIT row of an order. */
  lemma SubmitRow(ms: Markets, s: State, id: OrderId) returns (row: Payload)
    requires Inv(ms, s) && id in s.db.orders
    ensures row.CommandRow? && row.command.orderId == id && row in s.db.outbox
  {
    row := CommandRow(Submit(s.db.orders[id].commandId.value, id, s.db.orders[id].market));
  }

  /** A limit order becomes CANCELLED only by a CANCEL that goes through. */
  lemma OnlyCancelsCancel(ms: Markets, s: State, a: Action, id: OrderId)
    requires Inv(ms, s) && !Finished(s, id) && CancelledLimit(Step(ms, s, a), id)
    ensures Cancels(ms, s, a, id)
  {
    hide Inv, SettleSubmit, LockReservation, Validate, CommandIdUsed, Reboot, BooksAfterFailure;
    if a.Process? && Published(s.db, a.command) {
      CommandKnown(ms, s, a.command);
      if a.command.Submit? {
        SubmitCancelsNone(ms, s, a.command, id);
      }
    }
  }

  lemma CommandKnown(ms: Markets, s: State, c: Command)
    requires Inv(ms, s) && Published(s.db, c)
    ensures CommandOk(s.db.orders, c)
  {
  }

  lemma {:induction false} NothingReleased(ms: Markets, s: State, actions: seq<Action>, id: OrderId, k: WalletKey)
    requires Inv(ms, s) && Finished(s, id)
    ensures ReleasedIn(ms, s, actions, id, k) == 0
    ensures id in Run(ms, s, actions).db.orders && Run(ms, s, actions).db.orders[id] == s.db.orders[id]
    decreases |actions|
  {
    hide Inv, Step, Cancels, Conserved;
    if actions != [] {
      StepFinished(ms, s, actions[0], id);
      StepKeepsAll(ms, s, actions[0]);
      NothingReleased(ms, Step(ms, s, actions[0]), actions[1..], id, k);
    }
  }

  /** The CANCEL that goes through releases what the order has left, and its row keeps that leaveQty. */
  lemma CancelReleases(ms: Markets, s: State, a: Action, id: OrderId, k: WalletKey)
    requires Inv(ms, s) && Cancels(ms, s, a, id)
    ensures var s1 := Step(ms, s, a);
            && CancelledRow(s1, id) && s1.db.orders[id].market in ms
            && LockedAt(s.db.wallets, k) - LockedAt(s1.db.wallets, k) == LeftAt(ms[s1.db.orders[id].market], s1.db.orders[id], k)
  {
    hide Inv, SettleCancel;
    CancelFinishes(ms, s, a.command);
    CancelReleasesReservation(ms, s, a.command, k);
  }

  ghost predicate CancelledRow(s: State, id: OrderId) {
    id in s.db.orders && s.db.orders[id].status == CANCELLED
  }

  /**
   Over every run: the CANCELs of a limit order have released exactly what it has
   left if it is CANCELLED, and nothing otherwise.
   */
  lemma {:induction false} ReleasedExactly(ms: Markets, s: State, actions: seq<Action>, id: OrderId, k: WalletKey)
    requires Inv(ms, s) && !Finished(s, id)
    requires var r := Run(ms, s, actions); id in r.db.orders && r.db.orders[id].orderType.LIMIT?
    ensures var o := Run(ms, s, actions).db.orders[id];
            && o.market in ms
            && ReleasedIn(ms, s, actions, id, k) == if o.status == CANCELLED then LeftAt(ms[o.market], o, k) else 0
    decreases |actions|
  {
    hide Inv, Step, Cancels, LeftAt, Conserved, OrderOk;
    if actions == [] {
      MarketKnown(ms, s, id);
    } else {
      var a, s1 := actions[0], Step(ms, s, actions[0]);
      StepFinished(ms, s, a, id);
      StepKeepsAll(ms, s, a);
      if Finished(s1, id) {
        NothingReleased(ms, s1, actions[1..], id, k);
        MarketKnown(ms, s1, id);
        if Cancels(ms, s, a, id) {
          CancelReleases(ms, s, a, id, k);
        } else if CancelledLimit(s1, id) {
          OnlyCancelsCancel(ms, s, a, id);
        }
      } else {
        ReleasedExactly(ms, s1, actions[1..], id, k);
      }
    }
  }

  lemma MarketKnown(ms: Markets, s: State, id: OrderId)
    requires Inv(ms, s) && id in s.db.orders
    ensures s.db.orders[id].market in ms
  {
  }
}
