/**
 What the order API lets in, stated on requests, rows and runs: which request is
 accepted, with which error it is refused otherwise, and where every order row
 and every cancellation in the outbox came from.
 */
module Requests {
  import opened Wrappers
  import opened Ledger
  import opened LedgerFacts
  import opened Settlement
  import opened Invariant
  import opened SubmitProof
  import opened Exchange
  import opened CommandRows
  import Lifecycle

  // ------------------------------------------------------------ placing orders

  /** Whole steps, and at a limit whole ticks. */
  predicate OnSteps(m: Market, r: OrderRequest) {
    && m.stepSize != 0 && r.quantity % m.stepSize == 0
    && (r.orderType.LIMIT? ==> r.price.Some? && m.tickSize != 0 && r.price.value % m.tickSize == 0)
  }

  /** Price x quantity, in units of 10^-24, reaches the market's minimum. */
  predicate LargeEnough(m: Market, r: OrderRequest) {
    r.orderType.LIMIT? && r.price.Some? ==> r.price.value * r.quantity >= m.minNotional * 1_000_000_000_000
  }

  predicate PositiveFigures(r: OrderRequest) {
    r.quantity > 0 && (r.orderType.LIMIT? && r.price.Some? ==> r.price.value > 0)
  }

  /** What the request needs free: the base of a sale, the quote of a limit purchase, nothing for a purchase at market. */
  predicate Funded(ws: Wallets, user: UserId, m: Market, r: OrderRequest) {
    if r.side.Ask? then
      WalletKey(user, m.baseAsset) in ws && ws[WalletKey(user, m.baseAsset)].balance >= r.quantity * 10_000_000_000_000_000
    else if r.orderType.LIMIT? then
      && r.price.Some?
      && WalletKey(user, m.quoteAsset) in ws && ws[WalletKey(user, m.quoteAsset)].balance >= r.price.value * r.quantity * 10_000
    else true
  }

  /** Everything the API asks of a request. */
  predicate Acceptable(ms: Markets, db: Db, user: UserId, frozen: Option<bool>, r: OrderRequest, id: OrderId, cmd: CommandId) {
    && frozen == Some(false)
    && r.market in ms && ms[r.market].enabled
    && OnSteps(ms[r.market], r) && LargeEnough(ms[r.market], r) && PositiveFigures(r)
    && Funded(db.wallets, user, ms[r.market], r)
    && id !in db.orders && forall o :: o in db.orders ==> db.orders[o].commandId != Some(cmd)
  }

  /** A request is accepted if and only if it is acceptable; the order is then OPEN with nothing filled. */
  lemma AcceptedExactly(ms: Markets, db: Db, user: UserId, frozen: Option<bool>, r: OrderRequest, id: OrderId, cmd: CommandId)
    requires WalletsOk(db.wallets)
    ensures SubmitOrder(ms, db, user, frozen, r, id, cmd).Accepted? <==> Acceptable(ms, db, user, frozen, r, id, cmd)
  {
    if r.price.Some? && r.price.value > 0 && r.quantity > 0 {
      QuotePositive(r.price.value, r.quantity);
    }
  }

  /** The row and the command an accepted request leaves. */
  lemma AcceptedLeaves(ms: Markets, db: Db, user: UserId, frozen: Option<bool>, r: OrderRequest, id: OrderId, cmd: CommandId)
    requires SubmitOrder(ms, db, user, frozen, r, id, cmd).Accepted?
    ensures var after := SubmitOrder(ms, db, user, frozen, r, id, cmd).db;
            && after.orders.Keys == db.orders.Keys + {id} && (forall o :: o in db.orders ==> after.orders[o] == db.orders[o])
            && after.outbox == db.outbox + [CommandRow(Submit(cmd, id, r.market))] && after.trades == db.trades
            && var o := after.orders[id];
               o.userId == user && o.market == r.market && o.side == r.side && o.orderType == r.orderType
               && o.quantity == r.quantity && o.leaveQty == r.quantity && o.filledQty == 0 && o.status == OPEN
               && o.commandId == Some(cmd) && (if r.orderType.LIMIT? then o.price == r.price else o.price.None?)
  {
  }

  /** The checks of a request in their order: what has to hold and the error where it does not. */
  datatype Check = Check(holds: bool, error: ApiError)

  function Checks(ms: Markets, frozen: Option<bool>, r: OrderRequest): seq<Check> {
    if r.market !in ms then
      [Check(frozen.Some?, UserNotFound), Check(frozen != Some(true), AccountFrozen), Check(false, MarketNotFound)]
    else
      var m := ms[r.market];
      var limit, price := r.orderType.LIMIT?, r.price.GetOr(0);
      [Check(frozen.Some?, UserNotFound), Check(frozen != Some(true), AccountFrozen), Check(m.enabled, MarketNotFound),
       Check(m.stepSize != 0 && r.quantity % m.stepSize == 0, StepViolation),
       Check(limit ==> r.price.Some?, PriceRequired),
       Check(limit ==> m.tickSize != 0 && price % m.tickSize == 0, TickViolation),
       Check(limit ==> price * r.quantity >= m.minNotional * 1_000_000_000_000, BelowMinNotional),
       Check(r.quantity > 0, QuantityNotPositive),
       Check(limit ==> price > 0, PriceNotPositive)]
  }

  /** A request that fails a check is refused with the error of the first one it fails. */
  lemma FirstFailingCheck(ms: Markets, db: Db, user: UserId, frozen: Option<bool>, r: OrderRequest, id: OrderId, cmd: CommandId, i: nat)
    requires var cs := Checks(ms, frozen, r); i < |cs| && !cs[i].holds && forall j :: 0 <= j < i ==> cs[j].holds
    ensures SubmitOrder(ms, db, user, frozen, r, id, cmd) == Rejected(Checks(ms, frozen, r)[i].error)
  {
    var cs := Checks(ms, frozen, r);
    assert i > 0 ==> cs[0].holds;
    assert i > 1 ==> cs[1].holds;
    assert i > 2 ==> cs[2].holds;
    assert i > 3 ==> cs[3].holds;
    assert i > 4 ==> cs[4].holds;
    assert i > 5 ==> cs[5].holds;
    assert i > 6 ==> cs[6].holds;
    assert i > 7 ==> cs[7].holds;
  }

  /** One that passes them all is refused only for want of funds, or else of fresh ids. */
  lemma AfterTheChecks(ms: Markets, db: Db, user: UserId, frozen: Option<bool>, r: OrderRequest, id: OrderId, cmd: CommandId)
    requires WalletsOk(db.wallets) && forall c :: c in Checks(ms, frozen, r) ==> c.holds
    ensures r.market in ms
    ensures var answer := SubmitOrder(ms, db, user, frozen, r, id, cmd);
            if !Funded(db.wallets, user, ms[r.market], r) then answer == Rejected(InsufficientBalance)
            else answer.Accepted? || answer == Rejected(UniqueViolation)
  {
    var cs := Checks(ms, frozen, r);
    assert cs[2] in cs && cs[0] in cs && cs[1] in cs;
    assert r.market in ms;
    assert cs[3] in cs && cs[4] in cs && cs[5] in cs && cs[6] in cs && cs[7] in cs && cs[8] in cs;
    if r.price.Some? && r.price.value > 0 {
      QuotePositive(r.price.value, r.quantity);
    }
  }

  /** The request behind an order row. */
  ghost predicate PlacedBy(ms: Markets, s: State, a: Action, id: OrderId, o: Order) {
    && a.Place? && a.id == id && a.frozen == Some(false) && a.user == o.userId
    && a.request.market == o.market && a.request.side == o.side && a.request.orderType == o.orderType
    && a.request.quantity == o.quantity && (o.orderType.LIMIT? ==> a.request.price == o.price) && o.commandId == Some(a.commandId)
    && Acceptable(ms, s.db, a.user, a.frozen, a.request, id, a.commandId)
  }

  /** What every order row shows of the checks it passed. */
  predicate RowOfMarket(ms: Markets, o: Order) {
    && o.market in ms && ms[o.market].enabled
    && o.quantity > 0 && ms[o.market].stepSize != 0 && o.quantity % ms[o.market].stepSize == 0
    && (o.orderType.LIMIT? ==>
          && o.price.Some? && o.price.value > 0 && ms[o.market].tickSize != 0 && o.price.value % ms[o.market].tickSize == 0
          && o.price.value * o.quantity >= ms[o.market].minNotional * 1_000_000_000_000)
  }

  /** A new row comes from an acceptable request, and no step changes the terms of an old one. */
  lemma StepRows(ms: Markets, s: State, a: Action, id: OrderId)
    requires Inv(ms, s) && id in Step(ms, s, a).db.orders
    ensures id !in s.db.orders ==> PlacedBy(ms, s, a, id, Step(ms, s, a).db.orders[id])
    ensures id in s.db.orders ==> Terms(Step(ms, s, a).db.orders[id]) == Terms(s.db.orders[id])
  {
    StepKeepsAll(ms, s, a);
    if id !in s.db.orders {
      NewRow(ms, s, a, id);
    }
  }

  lemma NewRow(ms: Markets, s: State, a: Action, id: OrderId)
    requires Inv(ms, s) && id in Step(ms, s, a).db.orders && id !in s.db.orders
    ensures PlacedBy(ms, s, a, id, Step(ms, s, a).db.orders[id])
  {
    if a.Place? {
      WalletsAreOk(ms, s);
      AcceptedExactly(ms, s.db, a.user, a.frozen, a.request, a.id, a.commandId);
      hide Inv, Validate, LockReservation, CommandIdUsed, Acceptable;
      assert SubmitOrder(ms, s.db, a.user, a.frozen, a.request, a.id, a.commandId).Accepted?;
      AcceptedLeaves(ms, s.db, a.user, a.frozen, a.request, a.id, a.commandId);
      FrozenIsKnown(ms, s.db, a.user, a.frozen, a.request, id, a.commandId);
    } else {
      RowsStay(ms, s, a, id);
    }
  }

  lemma FrozenIsKnown(ms: Markets, db: Db, user: UserId, frozen: Option<bool>, r: OrderRequest, id: OrderId, cmd: CommandId)
    requires Acceptable(ms, db, user, frozen, r, id, cmd)
    ensures frozen == Some(false)
  {
  }

  lemma WalletsAreOk(ms: Markets, s: State)
    requires Inv(ms, s)
    ensures WalletsOk(s.db.wallets)
  {
  }

  /** Only the API makes rows. */
  lemma RowsStay(ms: Markets, s: State, a: Action, id: OrderId)
    requires Inv(ms, s) && !a.Place? && id in Step(ms, s, a).db.orders
    ensures id in s.db.orders
  {
    hide Inv, Step, AppendsEvents, Conserved, Progress;
    StepKeepsAll(ms, s, a);
    StepAppends(ms, s, a);
    var s1 := Step(ms, s, a);
    var row := SubmitRowOf(ms, s1, id);
    SubmitRowWasThere(ms, s, a, row);
    RowKnown(ms, s, row);
  }

  lemma SubmitRowOf(ms: Markets, s: State, id: OrderId) returns (c: Command)
    requires Inv(ms, s) && id in s.db.orders
    ensures c.Submit? && c.orderId == id && CommandRow(c) in s.db.outbox
  {
    c := Submit(s.db.orders[id].commandId.value, id, s.db.orders[id].market);
  }

  lemma SubmitRowWasThere(ms: Markets, s: State, a: Action, c: Command)
    requires !a.Place? && c.Submit? && CommandRow(c) in Step(ms, s, a).db.outbox
    ensures CommandRow(c) in s.db.outbox
  {
    hide Step;
    StepAppends(ms, s, a);
    var before, after := s.db.outbox, Step(ms, s, a).db.outbox;
    assert after == before + after[|before|..];
  }

  /**
   Every order row of every run came from a request by its owner, not frozen at
   that moment, that met every check; and its figures still show it.
   */
  lemma {:induction false} RowsWerePlaced(ms: Markets, s: State, actions: seq<Action>, id: OrderId) returns (i: nat)
    requires Initial(ms, s) && id in Run(ms, s, actions).db.orders
    ensures i < |actions| && PlacedBy(ms, Run(ms, s, actions[..i]), actions[i], id, Run(ms, s, actions).db.orders[id])
    ensures RowOfMarket(ms, Run(ms, s, actions).db.orders[id])
    decreases |actions|
  {
    hide Run, Step, Acceptable, Initial, Inv, Progress, Conserved, PlacedBy, RowOfMarket;
    assert actions != [] by { NothingAtStart(ms, s, actions, id); }
    var init, last := actions[..|actions| - 1], actions[|actions| - 1];
    assert actions == init + [last];
    Lifecycle.RunAppend(ms, s, init, [last]);
    Lifecycle.RunOne(ms, Run(ms, s, init), last);
    InitialInv(ms, s);
    RunKeepsAll(ms, s, init);
    StepRows(ms, Run(ms, s, init), last, id);
    if id in Run(ms, s, init).db.orders {
      i := RowsWerePlaced(ms, s, init, id);
      assert init[..i] == actions[..i];
      SameTermsPlaced(ms, Run(ms, s, init[..i]), actions[i], id, Run(ms, s, init).db.orders[id], Run(ms, s, actions).db.orders[id]);
    } else {
      i := |init|;
      assert actions[..i] == init;
    }
    PlacedShows(ms, Run(ms, s, actions[..i]), actions[i], id, Run(ms, s, actions).db.orders[id]);
  }

  lemma NothingAtStart(ms: Markets, s: State, actions: seq<Action>, id: OrderId)
    requires Initial(ms, s) && id in Run(ms, s, actions).db.orders
    ensures actions != []
  {
  }

  lemma SameTermsPlaced(ms: Markets, s: State, a: Action, id: OrderId, o: Order, o1: Order)
    requires PlacedBy(ms, s, a, id, o) && Terms(o1) == Terms(o)
    ensures PlacedBy(ms, s, a, id, o1)
  {
  }

  lemma PlacedShows(ms: Markets, s: State, a: Action, id: OrderId, o: Order)
    requires PlacedBy(ms, s, a, id, o)
    ensures RowOfMarket(ms, o)
  {
  }

  // ------------------------------------------------------- asking to cancel

  predicate Live(o: Order) {
    o.status == OPEN || o.status == PARTIAL
  }

  /** The three answers to a request to cancel, exactly. */
  lemma CancelAnswered(db: Db, user: UserId, id: OrderId, cmd: CommandId)
    ensures var answer := RequestCancel(db, user, id, cmd);
            && (answer == Rejected(OrderNotFound) <==> id !in db.orders || db.orders[id].userId != user)
            && (answer == Rejected(OrderNotActive) <==> id in db.orders && db.orders[id].userId == user && !Live(db.orders[id]))
            && (answer.Accepted? <==> id in db.orders && db.orders[id].userId == user && Live(db.orders[id]))
            && (answer.Accepted? ==> answer.db == db.(outbox := db.outbox + [CommandRow(CancelOrder(cmd, id, db.orders[id].market))]))
  {
  }

  /** The owner asked for it while the order was live. */
  ghost predicate AskedByOwner(s: State, a: Action, c: Command) {
    && a.AskCancel? && a.id == c.orderId && a.commandId == c.commandId
    && a.id in s.db.orders && s.db.orders[a.id].userId == a.user && Live(s.db.orders[a.id]) && s.db.orders[a.id].market == c.symbol
  }

  lemma StepCancels(ms: Markets, s: State, a: Action, c: Command)
    requires c.CancelOrder? && CommandRow(c) in Step(ms, s, a).db.outbox
    ensures CommandRow(c) in s.db.outbox || AskedByOwner(s, a, c)
  {
    hide Deliver, Validate, LockReservation, CommandIdUsed, Reboot, BooksAfterFailure, RequestCancel;
    if a.AskCancel? {
      CancelAnswered(s.db, a.user, a.id, a.commandId);
    } else if !a.Place? {
      StepAppends(ms, s, a);
      var before, after := s.db.outbox, Step(ms, s, a).db.outbox;
      assert after == before + after[|before|..];
    }
  }

  /** Every cancellation in the outbox of every run was asked for by the order's owner while the order was live. */
  lemma {:induction false} CancelsWereAskedFor(ms: Markets, s: State, actions: seq<Action>, c: Command) returns (i: nat)
    requires Initial(ms, s) && c.CancelOrder? && CommandRow(c) in Run(ms, s, actions).db.outbox
    ensures i < |actions| && AskedByOwner(Run(ms, s, actions[..i]), actions[i], c)
    decreases |actions|
  {
    hide Step, AskedByOwner;
    assert actions != [];
    var init, last := actions[..|actions| - 1], actions[|actions| - 1];
    assert actions == init + [last];
    Lifecycle.RunAppend(ms, s, init, [last]);
    Lifecycle.RunOne(ms, Run(ms, s, init), last);
    StepCancels(ms, Run(ms, s, init), last, c);
    if CommandRow(c) in Run(ms, s, init).db.outbox {
      i := CancelsWereAskedFor(ms, s, init, c);
      assert init[..i] == actions[..i];
    } else {
      i := |init|;
      assert actions[..i] == init;
    }
  }
}
