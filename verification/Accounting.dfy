/** Where the money of one limit order went, over its whole life. */
module Accounting {
  import opened Wrappers
  import opened Ledger
  import opened LedgerFacts
  import opened SettleFacts
  import opened Settlement
  import opened Invariant
  import opened Exchange
  import opened Releases

  predicate Involves(t: Trade, id: OrderId) {
    t.makerOrderId == id || t.takerOrderId == id
  }

  /** Gross quote amount of an order's trades: what a buyer paid, what a seller was paid before fees. */
  function Gross(ts: seq<Trade>, id: OrderId): int {
    if ts == [] then 0
    else
      var t := ts[|ts| - 1];
      Gross(ts[..|ts| - 1], id) + if Involves(t, id) then QuoteAmount(t.price, t.quantity) else 0
  }

  /** What one trade gives back to a buyer with this limit. */
  function RefundOf(t: Trade, limit: int): int {
    QuoteAmount(limit - t.price, t.quantity)
  }

  /** What a buyer got back for trading below its limit. */
  function Improvement(ts: seq<Trade>, id: OrderId, limit: int): int {
    if ts == [] then 0
    else
      var t := ts[|ts| - 1];
      Improvement(ts[..|ts| - 1], id, limit) + if Involves(t, id) then RefundOf(t, limit) else 0
  }

  lemma {:induction false} GrossPlusImprovement(ms: Markets, orders: map<OrderId, Order>, ts: seq<Trade>, id: OrderId, limit: int)
    requires TradesOk(ms, orders, ts)
    ensures QuoteAmount(limit, TradedQty(ts, id)) == Gross(ts, id) + Improvement(ts, id, limit)
    decreases |ts|
  {
    if ts != [] {
      var t := ts[|ts| - 1];
      assert TradeOk(ms, orders, t);
      GrossPlusImprovement(ms, orders, ts[..|ts| - 1], id, limit);
      var before := TradedQty(ts[..|ts| - 1], id);
      if Involves(t, id) {
        QuoteSplits(limit, before + t.quantity, t.quantity);
        assert QuoteAmount(limit - t.price, t.quantity) == QuoteAmount(limit, t.quantity) - QuoteAmount(t.price, t.quantity) by {
          assert (limit - t.price) * t.quantity == limit * t.quantity - t.price * t.quantity;
        }
      }
    }
  }

  /** Every single refund is non-negative for a buyer, and every price at or above the limit for a seller. */
  lemma RefundPerTrade(ms: Markets, orders: map<OrderId, Order>, t: Trade, id: OrderId, limit: int)
    requires TradeOk(ms, orders, t) && Involves(t, id) && id in orders && orders[id].price == Some(limit)
    ensures orders[id].side.Bid? ==> t.price <= limit && QuoteAmount(limit - t.price, t.quantity) >= 0
    ensures orders[id].side.Ask? ==> t.price >= limit && QuoteAmount(limit - t.price, t.quantity) <= 0
  {
    if orders[id].side.Bid? {
      QuoteMonotone(0, limit - t.price, t.quantity);
    } else {
      QuoteMonotone(limit - t.price, 0, t.quantity);
    }
  }

  lemma {:induction false} ImprovementSign(ms: Markets, orders: map<OrderId, Order>, ts: seq<Trade>, id: OrderId, limit: int)
    requires TradesOk(ms, orders, ts) && id in orders && orders[id].price == Some(limit)
    ensures orders[id].side.Bid? ==> Improvement(ts, id, limit) >= 0
    ensures orders[id].side.Ask? ==> Improvement(ts, id, limit) <= 0
    decreases |ts|
  {
    if ts != [] {
      var t := ts[|ts| - 1];
      assert TradeOk(ms, orders, t);
      ImprovementSign(ms, orders, ts[..|ts| - 1], id, limit);
      if Involves(t, id) {
        RefundPerTrade(ms, orders, t, id, limit);
      }
    }
  }

  /**
   In every reachable state, a limit BID's reservation splits exactly into what
   was paid on fills, what came back for better prices, what a CANCEL released,
   and what is still locked.
   */
  lemma LimitBidAccounted(ms: Markets, s: State, actions: seq<Action>, id: OrderId)
    requires Initial(ms, s)
    requires var r := Run(ms, s, actions); id in r.db.orders && r.db.orders[id].side.Bid? && r.db.orders[id].price.Some?
    ensures var r := Run(ms, s, actions); var o := r.db.orders[id]; var p := o.price.value;
            && o.market in ms
            && var k := WalletKey(o.userId, ms[o.market].quoteAsset);
               && QuoteAmount(p, o.quantity)
                  == Gross(r.db.trades, id) + Improvement(r.db.trades, id, p) + ReleasedIn(ms, s, actions, id, k) + ReservedFor(ms[o.market], o, k)
               && ReleasedIn(ms, s, actions, id, k) == (if o.status == CANCELLED then QuoteAmount(p, o.leaveQty) else 0)
               && ReservedFor(ms[o.market], o, k) == (if Terminal(o.status) then 0 else QuoteAmount(p, o.leaveQty))
               && (o.status == FILLED ==> o.leaveQty == 0)
    ensures var r := Run(ms, s, actions); var p := r.db.orders[id].price.value;
            && (forall i :: 0 <= i < |r.db.trades| && Involves(r.db.trades[i], id) ==> RefundOf(r.db.trades[i], p) >= 0)
            && Improvement(r.db.trades, id, p) >= 0
  {
    hide Gross, Improvement, TradedQty, Run, BooksOk, OutboxOk, TradesOk, ReleasedIn;
    InitialInv(ms, s);
    RunKeepsAll(ms, s, actions);
    var r := Run(ms, s, actions);
    var o := r.db.orders[id];
    assert OrderOk(ms, o) && o.filledQty == TradedQty(r.db.trades, id);
    GrossPlusImprovement(ms, r.db.orders, r.db.trades, id, o.price.value);
    ImprovementSign(ms, r.db.orders, r.db.trades, id, o.price.value);
    forall i | 0 <= i < |r.db.trades| && Involves(r.db.trades[i], id) ensures RefundOf(r.db.trades[i], o.price.value) >= 0 {
      TradeIsOk(ms, r.db, i);
      RefundPerTrade(ms, r.db.orders, r.db.trades[i], id, o.price.value);
    }
    QuoteSplits(o.price.value, o.quantity, o.leaveQty);
    ReleasedExactly(ms, s, actions, id, WalletKey(o.userId, ms[o.market].quoteAsset));
  }

  /** A limit ASK's reservation: sold, released by a CANCEL, or still locked. */
  lemma LimitAskAccounted(ms: Markets, s: State, actions: seq<Action>, id: OrderId)
    requires Initial(ms, s)
    requires var r := Run(ms, s, actions); id in r.db.orders && r.db.orders[id].side.Ask? && r.db.orders[id].price.Some?
    ensures var r := Run(ms, s, actions); var o := r.db.orders[id];
            && o.market in ms
            && var k := WalletKey(o.userId, ms[o.market].baseAsset);
               && BaseAmount(o.quantity)
                  == BaseAmount(TradedQty(r.db.trades, id)) + ReleasedIn(ms, s, actions, id, k) + ReservedFor(ms[o.market], o, k)
               && ReleasedIn(ms, s, actions, id, k) == (if o.status == CANCELLED then BaseAmount(o.leaveQty) else 0)
               && ReservedFor(ms[o.market], o, k) == (if Terminal(o.status) then 0 else BaseAmount(o.leaveQty))
               && (o.status == FILLED ==> o.leaveQty == 0)
  {
    hide TradedQty, Run, BooksOk, OutboxOk, TradesOk, ReleasedIn;
    InitialInv(ms, s);
    RunKeepsAll(ms, s, actions);
    var r := Run(ms, s, actions);
    var o := r.db.orders[id];
    assert OrderOk(ms, o) && o.filledQty == TradedQty(r.db.trades, id);
    ReleasedExactly(ms, s, actions, id, WalletKey(o.userId, ms[o.market].baseAsset));
  }

  /** A limit ASK is never paid less than its limit, over all its fills. */
  lemma LimitAskProceeds(ms: Markets, s: State, actions: seq<Action>, id: OrderId)
    requires Initial(ms, s)
    requires var r := Run(ms, s, actions); id in r.db.orders && r.db.orders[id].side.Ask? && r.db.orders[id].price.Some?
    ensures var r := Run(ms, s, actions); var o := r.db.orders[id];
            && Gross(r.db.trades, id) >= QuoteAmount(o.price.value, o.filledQty)
            && forall i :: 0 <= i < |r.db.trades| && Involves(r.db.trades[i], id) ==> r.db.trades[i].price >= o.price.value
  {
    InitialInv(ms, s);
    RunKeepsAll(ms, s, actions);
    var r := Run(ms, s, actions);
    var o := r.db.orders[id];
    assert o.filledQty == TradedQty(r.db.trades, id);
    GrossPlusImprovement(ms, r.db.orders, r.db.trades, id, o.price.value);
    ImprovementSign(ms, r.db.orders, r.db.trades, id, o.price.value);
    forall i | 0 <= i < |r.db.trades| && Involves(r.db.trades[i], id) ensures r.db.trades[i].price >= o.price.value {
      TradeIsOk(ms, r.db, i);
      RefundPerTrade(ms, r.db.orders, r.db.trades[i], id, o.price.value);
    }
  }

  lemma TradeIsOk(ms: Markets, db: Db, i: nat)
    requires RecordsOk(ms, db) && i < |db.trades|
    ensures TradeOk(ms, db.orders, db.trades[i])
  {
  }
}
