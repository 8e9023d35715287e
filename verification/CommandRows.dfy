/**
 The command rows of the outbox: who appends them, and that no two of them are
 the same command.
 */
module CommandRows {
  import opened Wrappers
  import opened Ledger
  import opened Settlement
  import opened Invariant
  import opened Exchange

  /** No two rows hold the same command. */
  ghost predicate CommandsDistinct(outbox: seq<Payload>) {
    forall i, j :: 0 <= i < j < |outbox| && outbox[i].CommandRow? && outbox[j].CommandRow? ==> outbox[i] != outbox[j]
  }

  ghost predicate NoCommands(rows: seq<Payload>) {
    forall i :: 0 <= i < |rows| ==> !rows[i].CommandRow?
  }

  /** Rows are appended, none of them a command. */
  ghost predicate AppendsEvents(before: seq<Payload>, after: seq<Payload>) {
    before <= after && NoCommands(after[|before|..])
  }

  // ------------------------------------------------------------ the settlements

  lemma {:induction false} SettleFillsOutbox(db: Db, m: Market, t: Taker, fills: seq<OrderBook.Fill>, cmd: CommandId, idx: nat)
    ensures SettleFills(db, m, t, fills, cmd, idx).Some? ==> SettleFills(db, m, t, fills, cmd, idx).value.outbox == db.outbox
    decreases |fills|
  {
    hide MakerLeg, TakerLeg, MatchIdUsed;
    if fills != [] && SettleFill(db, m, t, fills[0], MatchId(cmd, idx)).Some? {
      SettleFillsOutbox(SettleFill(db, m, t, fills[0], MatchId(cmd, idx)).value, m, t, fills[1..], cmd, idx + 1);
    }
  }

  lemma {:induction false} SweepOutbox(db: Db, book: OrderBook.Book, m: Market, t: Taker, levels: seq<OrderBook.Level>, k: nat,
                                       remaining: int, cmd: CommandId, idx: nat)
    ensures var sw := SweepLevels(db, book, m, t, levels, k, remaining, cmd, idx);
            sw.db.Some? ==> sw.db.value.outbox == db.outbox
    decreases |levels|
  {
    hide OrderBook.Add, SettleFills, MarketSweep.DropResidue;
    if levels != [] && remaining > 0 {
      var take := MarketSweep.Min(levels[0].qty, remaining);
      var a := OrderBook.Add(book, MarketSweep.SweepId(t.id, k), t.row.side, levels[0].price, take);
      if a.Added? {
        SettleFillsOutbox(db, m, t, a.fills, cmd, idx);
        var d := SettleFills(db, m, t, a.fills, cmd, idx);
        if d.Some? {
          SweepOutbox(d.value, MarketSweep.DropResidue(a.book, MarketSweep.SweepId(t.id, k), a.leave), m, t, levels[1..], k + 1,
                      remaining - take, cmd, idx + |a.fills|);
        }
      }
    }
  }

  lemma {:induction false} TradeEventsNoCommands(ts: seq<Trade>)
    ensures NoCommands(AllTradeEvents(ts))
    decreases |ts|
  {
    if ts != [] {
      TradeEventsNoCommands(ts[1..]);
    }
  }

  lemma SubmitEventsNoCommands(id: OrderId, o: Order, trades: seq<Trade>, symbol: Symbol, b: OrderBook.Book)
    ensures NoCommands(SubmitEvents(id, o, trades, symbol, b))
  {
    hide AllTradeEvents;
    TradeEventsNoCommands(trades);
  }

  lemma CommitAppends(s: State, done: Option<Db>, t: Taker, symbol: Symbol, b: OrderBook.Book)
    requires done.Some? ==> done.value.outbox == s.db.outbox
    ensures AppendsEvents(s.db.outbox, Commit(s, done, t, symbol, b).state.db.outbox)
  {
    hide SubmitEvents;
    if done.Some? && t.id in done.value.orders {
      var d := done.value;
      var events := SubmitEvents(t.id, d.orders[t.id], NewTrades(s.db, d), symbol, b);
      SubmitEventsNoCommands(t.id, d.orders[t.id], NewTrades(s.db, d), symbol, b);
      assert (s.db.outbox + events)[|s.db.outbox|..] == events;
    } else {
      assert s.db.outbox[|s.db.outbox|..] == [];
    }
  }

  lemma SubmitAppends(ms: Markets, s: State, c: Command, t: Taker)
    requires SubmitTarget(ms, s.db, c) == Some(t)
    ensures AppendsEvents(s.db.outbox, SettleSubmit(ms, s, c).state.db.outbox)
  {
    hide OrderBook.Add, SettleFills, SweepLevels, Commit, MarketLevels, AppendsEvents;
    var m := ms[c.symbol];
    var book := BookOf(s.books, c.symbol);
    if t.row.orderType.LIMIT? {
      LimitAppends(s, m, t, c.symbol, c.commandId);
    } else {
      var sw := SweepLevels(s.db, book, m, t, MarketLevels(book, t.row.side), 0, t.row.quantity, c.commandId, 0);
      SweepOutbox(s.db, book, m, t, MarketLevels(book, t.row.side), 0, t.row.quantity, c.commandId, 0);
      var done := if sw.db.None? then None else FinishMarket(sw.db.value, m, t, sw.remaining);
      CommitAppends(s, done, t, c.symbol, sw.book);
    }
  }

  lemma LimitAppends(s: State, m: Market, t: Taker, symbol: Symbol, cmd: CommandId)
    ensures AppendsEvents(s.db.outbox, SettleLimit(s, m, t, symbol, cmd).state.db.outbox)
  {
    hide OrderBook.Add, SettleFills, Commit, AppendsEvents;
    NothingAppended(s.db.outbox);
    if t.row.price.Some? {
      var a := OrderBook.Add(BookOf(s.books, symbol), t.id, t.row.side, t.row.price.value, t.row.leaveQty);
      if a.Added? {
        SettleFillsOutbox(s.db, m, t, a.fills, cmd, 0);
        var d := SettleFills(s.db, m, t, a.fills, cmd, 0);
        var done := if d.None? then None else FinishLimit(d.value, t, a.leave);
        CommitAppends(s, done, t, symbol, a.book);
      }
    }
  }

  lemma NothingAppended(outbox: seq<Payload>)
    ensures AppendsEvents(outbox, outbox)
  {
  }

  lemma CancelAppends(ms: Markets, s: State, c: Command)
    ensures AppendsEvents(s.db.outbox, SettleCancel(ms, s, c).state.db.outbox)
  {
    hide Release, CancelInBook;
  }

  lemma DeliverAppends(ms: Markets, s: State, c: Command)
    ensures AppendsEvents(s.db.outbox, Deliver(ms, s, c).state.db.outbox)
  {
    hide SettleLimit, SettleMarket, SettleCancel, AppendsEvents;
    NothingAppended(s.db.outbox);
    if c.CancelOrder? {
      CancelAppends(ms, s, c);
    } else if SubmitTarget(ms, s.db, c).Some? {
      SubmitAppends(ms, s, c, SubmitTarget(ms, s.db, c).value);
    }
  }

  // ------------------------------------------------------------------- steps

  /** The command a request commits, if it is accepted. */
  ghost predicate Commits(s: State, a: Action, c: Command) {
    || (a.Place? && c.Submit? && c.orderId == a.id && a.id !in s.db.orders)
    || (a.AskCancel? && c.CancelOrder? && c.commandId == a.commandId)
  }

  /** A step appends events, or the one command of a request. */
  lemma StepAppends(ms: Markets, s: State, a: Action)
    ensures var before, after := s.db.outbox, Step(ms, s, a).db.outbox;
            || AppendsEvents(before, after)
            || (|after| == |before| + 1 && before <= after && after[|before|].CommandRow? && Commits(s, a, after[|before|].command))
  {
    hide Deliver, AppendsEvents, Validate, LockReservation, CommandIdUsed, Reboot, BooksAfterFailure;
    NothingAppended(s.db.outbox);
    if a.Process? && Published(s.db, a.command) {
      DeliverAppends(ms, s, a.command);
    }
  }

  lemma StepExtendsOutbox(ms: Markets, s: State, a: Action)
    ensures s.db.outbox <= Step(ms, s, a).db.outbox
  {
    hide Step;
    StepAppends(ms, s, a);
  }

  /** The cancellations in the outbox carry these command ids. */
  ghost predicate CancelsAmong(outbox: seq<Payload>, ids: set<CommandId>) {
    forall i :: 0 <= i < |outbox| && outbox[i].CommandRow? && outbox[i].command.CancelOrder? ==> outbox[i].command.commandId in ids
  }

  function CancelId(a: Action): set<CommandId> {
    if a.AskCancel? then {a.commandId} else {}
  }

  /** Order ids are never used twice, so only cancellations could repeat a command. */
  lemma StepDistinct(ms: Markets, s: State, a: Action, ids: set<CommandId>)
    requires Inv(ms, s) && CommandsDistinct(s.db.outbox) && CancelsAmong(s.db.outbox, ids) && ids !! CancelId(a)
    ensures CommandsDistinct(Step(ms, s, a).db.outbox) && CancelsAmong(Step(ms, s, a).db.outbox, ids + CancelId(a))
  {
    hide Step, DbOk, BooksOk;
    StepAppends(ms, s, a);
    var before, after := s.db.outbox, Step(ms, s, a).db.outbox;
    if AppendsEvents(before, after) {
      assert forall i :: |before| <= i < |after| ==> after[i] == after[|before|..][i - |before|];
    } else {
      forall i | 0 <= i < |before| && before[i].CommandRow? ensures before[i] != after[|before|] {
        assert CommandRow(before[i].command) in before;
        RowKnown(ms, s, before[i].command);
      }
    }
  }

  lemma RowKnown(ms: Markets, s: State, c: Command)
    requires Inv(ms, s) && CommandRow(c) in s.db.outbox
    ensures c.orderId in s.db.orders
  {
  }
}
