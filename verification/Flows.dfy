/**
 Every wallet is its opening balance and its trade rows: no other write moves
 anything into or out of it, and what is locked of it is what its live orders
 reserve.
 */
module Flows {
  import opened Wrappers
  import opened OrderBook
  import opened Ledger
  import opened LedgerFacts
  import opened SettleFacts
  import opened Settlement
  import opened Exchange

  /** Free and locked together. */
  function Held(ws: Wallets, k: WalletKey): int {
    BalanceAt(ws, k) + LockedAt(ws, k)
  }

  /** What one side of a trade moves in a wallet, by the figures of the trade row. */
  function SideFlow(m: Market, user: UserId, side: Side, price: int, qty: int, fee: int, k: WalletKey): int {
    if user != k.user then 0
    else if side.Bid? then
      (if m.baseAsset == k.asset then (qty * BP - fee) * FEE_SCALE else 0) - (if m.quoteAsset == k.asset then QuoteAmount(price, qty) else 0)
    else
      (if m.quoteAsset == k.asset then price * (qty * BP - fee) else 0) - (if m.baseAsset == k.asset then BaseAmount(qty) else 0)
  }

  function Flow(m: Market, t: Trade, k: WalletKey): int {
    SideFlow(m, t.makerUserId, t.makerSide, t.price, t.quantity, t.makerFee, k)
    + SideFlow(m, t.takerUserId, t.takerSide, t.price, t.quantity, t.takerFee, k)
  }

  /** The signed sum of the trade rows at one wallet. */
  function FlowsAt(ms: Markets, ts: seq<Trade>, k: WalletKey): int {
    if ts == [] then 0
    else
      var t := ts[|ts| - 1];
      FlowsAt(ms, ts[..|ts| - 1], k) + if t.market in ms then Flow(ms[t.market], t, k) else 0
  }

  lemma FlowsAppend(ms: Markets, ts: seq<Trade>, t: Trade, k: WalletKey)
    ensures FlowsAt(ms, ts + [t], k) == FlowsAt(ms, ts, k) + if t.market in ms then Flow(ms[t.market], t, k) else 0
  {
    assert (ts + [t])[..|ts|] == ts;
  }

  // ------------------------------------------------------------- single writes

  lemma UpdateHolds(ws: Wallets, u: WalletKey, balance: int, locked: int, k: WalletKey)
    requires UpdateWallet(ws, u, balance, locked).Some?
    ensures Held(UpdateWallet(ws, u, balance, locked).value, k) == Held(ws, k) + if u == k then balance + locked else 0
  {
  }

  lemma CreditHolds(ws: Wallets, u: WalletKey, amount: int, k: WalletKey)
    requires CreditWallet(ws, u, amount).Some?
    ensures Held(CreditWallet(ws, u, amount).value, k) == Held(ws, k) + if u == k then amount else 0
  {
  }

  lemma NetByRow(price: int, qty: int, bp: int)
    ensures NetBase(qty, bp) == (qty * BP - qty * bp) * FEE_SCALE
    ensures NetQuote(price, qty, bp) == price * (qty * BP - qty * bp)
  {
    assert qty * (BP - bp) == qty * BP - qty * bp;
    assert price * qty * (BP - bp) == price * (qty * (BP - bp));
  }

  lemma MakerLegHolds(ws: Wallets, m: Market, maker: Order, price: int, qty: int, k: WalletKey)
    requires MakerLeg(ws, m, maker, price, qty).Some?
    ensures Held(MakerLeg(ws, m, maker, price, qty).value, k)
            == Held(ws, k) + SideFlow(m, maker.userId, maker.side, price, qty, qty * m.makerFeeBp, k)
  {
    NetByRow(price, qty, m.makerFeeBp);
    hide Held, QuoteAmount, BaseAmount, NetBase, NetQuote, UpdateWallet, CreditWallet;
    if maker.side.Ask? {
      var u := WalletKey(maker.userId, m.baseAsset);
      UpdateHolds(ws, u, 0, -BaseAmount(qty), k);
      CreditHolds(UpdateWallet(ws, u, 0, -BaseAmount(qty)).value, WalletKey(maker.userId, m.quoteAsset), NetQuote(price, qty, m.makerFeeBp), k);
    } else {
      var u := WalletKey(maker.userId, m.quoteAsset);
      var reserved := QuoteAmount(maker.price.value, qty);
      var refund := reserved - QuoteAmount(price, qty);
      UpdateHolds(ws, u, refund, -reserved, k);
      CreditHolds(UpdateWallet(ws, u, refund, -reserved).value, WalletKey(maker.userId, m.baseAsset), NetBase(qty, m.makerFeeBp), k);
    }
  }

  lemma BuyerPaysHolds(ws: Wallets, m: Market, taker: Order, price: int, qty: int, k: WalletKey)
    requires BuyerPays(ws, m, taker, price, qty).Some?
    ensures Held(BuyerPays(ws, m, taker, price, qty).value, k)
            == Held(ws, k) - if WalletKey(taker.userId, m.quoteAsset) == k then QuoteAmount(price, qty) else 0
  {
    hide QuoteAmount;
  }

  lemma TakerLegHolds(ws: Wallets, m: Market, taker: Order, price: int, qty: int, k: WalletKey)
    requires TakerLeg(ws, m, taker, price, qty).Some?
    ensures Held(TakerLeg(ws, m, taker, price, qty).value, k)
            == Held(ws, k) + SideFlow(m, taker.userId, taker.side, price, qty, qty * m.takerFeeBp, k)
  {
    NetByRow(price, qty, m.takerFeeBp);
    hide Held, QuoteAmount, BaseAmount, NetBase, NetQuote, UpdateWallet, CreditWallet, BuyerPays;
    if taker.side.Ask? {
      var u := WalletKey(taker.userId, m.baseAsset);
      UpdateHolds(ws, u, 0, -BaseAmount(qty), k);
      CreditHolds(UpdateWallet(ws, u, 0, -BaseAmount(qty)).value, WalletKey(taker.userId, m.quoteAsset), NetQuote(price, qty, m.takerFeeBp), k);
    } else {
      BuyerPaysHolds(ws, m, taker, price, qty, k);
      CreditHolds(BuyerPays(ws, m, taker, price, qty).value, WalletKey(taker.userId, m.baseAsset), NetBase(qty, m.takerFeeBp), k);
    }
  }

  // --------------------------------------------------------------- settlements

  /** What a wallet holds beyond its trade rows. */
  function Beyond(ms: Markets, db: Db, k: WalletKey): int {
    Held(db.wallets, k) - FlowsAt(ms, db.trades, k)
  }

  lemma SettleFillFlows(ms: Markets, db: Db, m: Market, t: Taker, f: Fill, id: MatchId, k: WalletKey)
    requires SettleFill(db, m, t, f, id).Some? && m.symbol in ms && ms[m.symbol] == m
    ensures Beyond(ms, SettleFill(db, m, t, f, id).value, k) == Beyond(ms, db, k)
  {
    hide MakerLeg, TakerLeg, Held, SideFlow, FlowsAt, MatchIdUsed;
    var maker := db.orders[f.makerId];
    var w1 := MakerLeg(db.wallets, m, maker, f.price, f.qty).value;
    MakerLegHolds(db.wallets, m, maker, f.price, f.qty, k);
    TakerLegHolds(w1, m, t.row, f.price, f.qty, k);
    FlowsAppend(ms, db.trades, TradeRow(m, maker, t, f, id), k);
  }

  lemma {:induction false} SettleFillsFlow(ms: Markets, db: Db, m: Market, t: Taker, fills: seq<Fill>, cmd: CommandId, idx: nat, k: WalletKey)
    requires SettleFills(db, m, t, fills, cmd, idx).Some? && m.symbol in ms && ms[m.symbol] == m
    ensures Beyond(ms, SettleFills(db, m, t, fills, cmd, idx).value, k) == Beyond(ms, db, k)
    decreases |fills|
  {
    hide SettleFill, Beyond;
    if fills != [] {
      SettleFillFlows(ms, db, m, t, fills[0], MatchId(cmd, idx), k);
      SettleFillsFlow(ms, SettleFill(db, m, t, fills[0], MatchId(cmd, idx)).value, m, t, fills[1..], cmd, idx + 1, k);
    }
  }

  lemma {:induction false} SweepFlows(ms: Markets, db: Db, book: Book, m: Market, t: Taker, levels: seq<Level>, n: nat,
                                      remaining: int, cmd: CommandId, idx: nat, k: WalletKey)
    requires m.symbol in ms && ms[m.symbol] == m
    ensures var sw := SweepLevels(db, book, m, t, levels, n, remaining, cmd, idx);
            sw.db.Some? ==> Beyond(ms, sw.db.value, k) == Beyond(ms, db, k)
    decreases |levels|
  {
    hide Add, SettleFills, MarketSweep.DropResidue, Beyond;
    if levels != [] && remaining > 0 {
      var take := MarketSweep.Min(levels[0].qty, remaining);
      var a := Add(book, MarketSweep.SweepId(t.id, n), t.row.side, levels[0].price, take);
      if a.Added? && SettleFills(db, m, t, a.fills, cmd, idx).Some? {
        var d := SettleFills(db, m, t, a.fills, cmd, idx).value;
        SettleFillsFlow(ms, db, m, t, a.fills, cmd, idx, k);
        SweepFlows(ms, d, MarketSweep.DropResidue(a.book, MarketSweep.SweepId(t.id, n), a.leave), m, t, levels[1..], n + 1,
                   remaining - take, cmd, idx + |a.fills|, k);
      }
    }
  }

  lemma FinishHolds(ms: Markets, db: Db, m: Market, t: Taker, remaining: int, k: WalletKey)
    ensures FinishLimit(db, t, remaining).Some? ==> Beyond(ms, FinishLimit(db, t, remaining).value, k) == Beyond(ms, db, k)
    ensures FinishMarket(db, m, t, remaining).Some? ==> Beyond(ms, FinishMarket(db, m, t, remaining).value, k) == Beyond(ms, db, k)
  {
    hide FlowsAt, BaseAmount;
  }

  lemma CommitFlows(ms: Markets, s: State, done: Option<Db>, t: Taker, symbol: Symbol, b: Book, k: WalletKey)
    requires done.Some? ==> Beyond(ms, done.value, k) == Beyond(ms, s.db, k)
    ensures Beyond(ms, Commit(s, done, t, symbol, b).state.db, k) == Beyond(ms, s.db, k)
  {
    hide FlowsAt, Held, SubmitEvents;
  }

  lemma LimitFlows(ms: Markets, s: State, m: Market, t: Taker, cmd: CommandId, k: WalletKey)
    requires m.symbol in ms && ms[m.symbol] == m
    ensures Beyond(ms, SettleLimit(s, m, t, m.symbol, cmd).state.db, k) == Beyond(ms, s.db, k)
  {
    hide Add, SettleFills, Commit, Beyond, FinishLimit;
    if t.row.price.Some? {
      var a := Add(BookOf(s.books, m.symbol), t.id, t.row.side, t.row.price.value, t.row.leaveQty);
      if a.Added? {
        var d := SettleFills(s.db, m, t, a.fills, cmd, 0);
        var done := if d.None? then None else FinishLimit(d.value, t, a.leave);
        if d.Some? {
          SettleFillsFlow(ms, s.db, m, t, a.fills, cmd, 0, k);
          FinishHolds(ms, d.value, m, t, a.leave, k);
        }
        CommitFlows(ms, s, done, t, m.symbol, a.book, k);
      }
    }
  }

  lemma MarketFlows(ms: Markets, s: State, m: Market, t: Taker, cmd: CommandId, k: WalletKey)
    requires m.symbol in ms && ms[m.symbol] == m
    ensures Beyond(ms, SettleMarket(s, m, t, m.symbol, cmd).state.db, k) == Beyond(ms, s.db, k)
  {
    hide SweepLevels, Commit, Beyond, FinishMarket, MarketLevels;
    var book := BookOf(s.books, m.symbol);
    var sw := SweepLevels(s.db, book, m, t, MarketLevels(book, t.row.side), 0, t.row.quantity, cmd, 0);
    SweepFlows(ms, s.db, book, m, t, MarketLevels(book, t.row.side), 0, t.row.quantity, cmd, 0, k);
    var done := if sw.db.None? then None else FinishMarket(sw.db.value, m, t, sw.remaining);
    if sw.db.Some? {
      FinishHolds(ms, sw.db.value, m, t, sw.remaining, k);
    }
    CommitFlows(ms, s, done, t, m.symbol, sw.book, k);
  }

  lemma ReleaseHolds(ws: Wallets, m: Market, o: Order, k: WalletKey)
    requires Release(ws, m, o).Some?
    ensures Held(Release(ws, m, o).value, k) == Held(ws, k)
  {
    hide QuoteAmount, BaseAmount;
  }

  lemma CancelFlows(ms: Markets, s: State, c: Command, k: WalletKey)
    ensures Beyond(ms, SettleCancel(ms, s, c).state.db, k) == Beyond(ms, s.db, k)
  {
    hide FlowsAt, Held, Release, CancelInBook, CancelEvents;
    if c.orderId in s.db.orders && s.db.orders[c.orderId].market in ms {
      var o := s.db.orders[c.orderId];
      if Release(s.db.wallets, ms[o.market], o).Some? {
        ReleaseHolds(s.db.wallets, ms[o.market], o, k);
      }
    }
  }

  lemma LockHolds(ws: Wallets, user: UserId, m: Market, r: OrderRequest, k: WalletKey)
    requires LockReservation(ws, user, m, r).Some?
    ensures Held(LockReservation(ws, user, m, r).value, k) == Held(ws, k)
  {
    hide QuoteAmount, BaseAmount;
  }

  lemma PlaceFlows(ms: Markets, s: State, user: UserId, frozen: Option<bool>, r: OrderRequest, id: OrderId, cmd: CommandId, k: WalletKey)
    ensures Beyond(ms, Step(ms, s, Place(user, frozen, r, id, cmd)).db, k) == Beyond(ms, s.db, k)
  {
    hide Held, FlowsAt, LockReservation, CommandIdUsed;
    if Validate(frozen, ms, r).None? && LockReservation(s.db.wallets, user, ms[r.market], r).Some? {
      LockHolds(s.db.wallets, user, ms[r.market], r, k);
    }
  }

  lemma StepFlows(ms: Markets, s: State, a: Action, k: WalletKey)
    requires MarketsOk(ms)
    ensures Beyond(ms, Step(ms, s, a).db, k) == Beyond(ms, s.db, k)
  {
    hide Held, FlowsAt, SettleLimit, SettleMarket, SettleCancel, LockReservation, Validate, CommandIdUsed, Reboot, BooksAfterFailure;
    match a {
      case Place(user, frozen, r, id, cmd) =>
        PlaceFlows(ms, s, user, frozen, r, id, cmd, k);
      case AskCancel(user, id, cmd) =>
      case Process(c) =>
        if Published(s.db, c) {
          if c.CancelOrder? {
            CancelFlows(ms, s, c, k);
          } else if SubmitTarget(ms, s.db, c).Some? {
            LimitFlows(ms, s, ms[c.symbol], SubmitTarget(ms, s.db, c).value, c.commandId, k);
            MarketFlows(ms, s, ms[c.symbol], SubmitTarget(ms, s.db, c).value, c.commandId, k);
          }
        }
      case Fail(c, n) =>
      case Restart =>
    }
  }

  lemma {:induction false} RunFlows(ms: Markets, s: State, actions: seq<Action>, k: WalletKey)
    requires MarketsOk(ms)
    ensures Beyond(ms, Run(ms, s, actions).db, k) == Beyond(ms, s.db, k)
    decreases |actions|
  {
    hide Beyond, Step;
    if actions != [] {
      StepFlows(ms, s, actions[0], k);
      RunFlows(ms, Step(ms, s, actions[0]), actions[1..], k);
    }
  }

  /**
   Both fields of every wallet in every reachable state: locked is what its live
   orders reserve, and balance is what it opened with, plus its trade rows, less
   that.
   */
  lemma WalletsAreTheirTrades(ms: Markets, s: State, actions: seq<Action>, k: WalletKey)
    requires Initial(ms, s)
    ensures var r := Run(ms, s, actions).db;
            && LockedAt(r.wallets, k) == Reserved(ms, r.orders, k)
            && BalanceAt(r.wallets, k) == BalanceAt(s.db.wallets, k) + FlowsAt(ms, r.trades, k) - Reserved(ms, r.orders, k)
  {
    RunFlows(ms, s, actions, k);
    hide Run, FlowsAt, Reserved;
    LockedIsReserved(ms, s, actions, k);
  }
}
