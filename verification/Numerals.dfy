/**
 The text forms of match ids and of the event ids derived from them. Dedupe
 works on these texts, so different events must never share one.
 */
module Numerals {
  import opened Decimals
  import opened Ledger
  import opened Settlement
  import opened Invariant
  import opened Exchange

  // --------------------------------------------------------------- match ids

  /** `${commandId}#${matchIdx}` */
  function MatchIdText(id: MatchId): string {
    id.commandId + "#" + NatText(id.idx)
  }

  /** The event id of a trade, and with a suffix those of the two notifications. */
  function Suffix(p: Payload): string
    requires IsTradeEvent(p)
  {
    match p
    case TradeDone(_, _, _) => ""
    case TakerNotice(_, _, _) => ":taker"
    case MakerNotice(_, _, _) => ":maker"
  }

  function EventIdText(p: Payload): string
    requires IsTradeEvent(p)
  {
    MatchIdText(p.matchId) + Suffix(p)
  }

  /** The texts themselves. */
  lemma EventIdTexts(cmd: CommandId, n: nat, price: int, quantity: int, user: UserId, order: OrderId)
    ensures EventIdText(TradeDone(MatchId(cmd, n), price, quantity)) == cmd + "#" + NatText(n)
    ensures EventIdText(TakerNotice(MatchId(cmd, n), user, order)) == cmd + "#" + NatText(n) + ":taker"
    ensures EventIdText(MakerNotice(MatchId(cmd, n), user, order)) == cmd + "#" + NatText(n) + ":maker"
    ensures NatText(1905) == "1905" && NatText(0) == "0"
  {
    assert NatText(1) == "1" && NatText(19) == "19" && NatText(190) == "190";
  }

  function Before(s: string, sep: char): nat {
    if s == [] || s[0] == sep then 0 else 1 + Before(s[1..], sep)
  }

  lemma {:induction false} BeforeSeparator(a: string, sep: char, x: string)
    requires sep !in a
    ensures Before(a + [sep] + x, sep) == |a|
    decreases |a|
  {
    if a != [] {
      BeforeSeparator(a[1..], sep, x);
      assert (a + [sep] + x)[1..] == a[1..] + [sep] + x;
    }
  }

  /** Where a text first shows a separator, everything before it is determined. */
  lemma SplitAtFirst(a: string, b: string, x: string, y: string, sep: char)
    requires sep !in a && sep !in b
    requires a + [sep] + x == b + [sep] + y
    ensures a == b && x == y
  {
    BeforeSeparator(a, sep, x);
    BeforeSeparator(b, sep, y);
    var s, t := a + [sep] + x, b + [sep] + y;
    assert a == s[..|a|] && b == t[..|b|];
    assert x == s[|a| + 1..] && y == t[|b| + 1..];
  }

  lemma SuffixHasColon(a: string, x: string)
    requires x in {":taker", ":maker"}
    ensures ':' in a + x
  {
    assert (a + x)[|a|] == ':';
  }

  lemma TextsWithSuffix(a: string, b: string, x: string, y: string)
    requires ':' !in a && ':' !in b
    requires x in {"", ":taker", ":maker"} && y in {"", ":taker", ":maker"}
    requires a + x == b + y
    ensures a == b && x == y
  {
    assert a + "" == a && b + "" == b;
    if x != "" {
      SuffixHasColon(a, x);
    }
    if y != "" {
      SuffixHasColon(b, y);
    }
    if x != "" && y != "" {
      assert a + x == a + [':'] + x[1..] && b + y == b + [':'] + y[1..];
      SplitAtFirst(a, b, x[1..], y[1..], ':');
      assert x == [':'] + x[1..] && y == [':'] + y[1..];
    }
  }

  /** Command ids are UUIDs; all that matters is that they hold no '#'. */
  predicate Plain(cmd: CommandId) {
    '#' !in cmd
  }

  lemma AfterHash(cmd: CommandId, n: nat, x: string)
    ensures cmd + "#" + NatText(n) + x == cmd + ['#'] + (NatText(n) + x)
    ensures ':' !in NatText(n)
  {
    NatTextRoundTrip(n);
  }

  /** The event id determines the trade and the kind of the event. */
  lemma EventIdDeterminesEvent(p: Payload, q: Payload)
    requires IsTradeEvent(p) && IsTradeEvent(q)
    requires Plain(p.matchId.commandId) && Plain(q.matchId.commandId)
    requires EventIdText(p) == EventIdText(q)
    ensures p.matchId == q.matchId && Suffix(p) == Suffix(q)
  {
    var i, j := p.matchId, q.matchId;
    AfterHash(i.commandId, i.idx, Suffix(p));
    AfterHash(j.commandId, j.idx, Suffix(q));
    SplitAtFirst(i.commandId, j.commandId, NatText(i.idx) + Suffix(p), NatText(j.idx) + Suffix(q), '#');
    TextsWithSuffix(NatText(i.idx), NatText(j.idx), Suffix(p), Suffix(q));
    NatTextRoundTrip(i.idx);
    NatTextRoundTrip(j.idx);
  }

  // -------------------------------------------------------------- every run

  /** Event i of a list of trades belongs to trade i/3. */
  lemma {:induction false} TradeEventAt(ts: seq<Trade>, i: nat)
    ensures |AllTradeEvents(ts)| == 3 * |ts|
    ensures i < 3 * |ts| ==> AllTradeEvents(ts)[i] == TradeEvents(ts[i / 3])[i % 3]
    decreases |ts|
  {
    if ts != [] {
      TradeEventAt(ts[1..], if i >= 3 then i - 3 else 0);
      var head, tail := TradeEvents(ts[0]), AllTradeEvents(ts[1..]);
      if i < 3 {
        assert AllTradeEvents(ts)[i] == head[i];
      } else if i < 3 * |ts| {
        assert AllTradeEvents(ts)[i] == tail[i - 3] && (i - 3) / 3 == i / 3 - 1 && (i - 3) % 3 == i % 3;
      }
    }
  }

  ghost predicate PlainOrders(orders: map<OrderId, Order>) {
    forall id :: id in orders && orders[id].commandId.Some? ==> Plain(orders[id].commandId.value)
  }

  ghost predicate DifferentIds(p: Payload, q: Payload) {
    IsTradeEvent(p) && IsTradeEvent(q) && EventIdText(p) != EventIdText(q)
  }

  lemma EventsDiffer(ms: Markets, db: Db, i: nat, j: nat)
    requires RecordsOk(ms, db) && PlainOrders(db.orders) && i < j < |TradeLog(db.outbox)|
    ensures DifferentIds(TradeLog(db.outbox)[i], TradeLog(db.outbox)[j])
  {
    var ts := db.trades;
    TradeEventAt(ts, i);
    TradeEventAt(ts, j);
    var a, b := i / 3, j / 3;
    assert TradeOk(ms, db.orders, ts[a]) && TradeOk(ms, db.orders, ts[b]);
    var p, q := TradeLog(db.outbox)[i], TradeLog(db.outbox)[j];
    assert p == TradeEvents(ts[a])[i % 3] && q == TradeEvents(ts[b])[j % 3];
    assert p.matchId == ts[a].matchId && q.matchId == ts[b].matchId;
    if EventIdText(p) == EventIdText(q) {
      EventIdDeterminesEvent(p, q);
    }
  }

  /**
   In every reachable state the trade events in the outbox are those of the
   trades, in order, and no two of them carry the same event id.
   */
  lemma EventIdsAreDistinct(ms: Markets, s: State, actions: seq<Action>)
    requires Initial(ms, s) && PlainOrders(Run(ms, s, actions).db.orders)
    ensures var r := Run(ms, s, actions).db;
            && TradeLog(r.outbox) == AllTradeEvents(r.trades)
            && forall i, j :: 0 <= i < j < |TradeLog(r.outbox)| ==> DifferentIds(TradeLog(r.outbox)[i], TradeLog(r.outbox)[j])
  {
    InitialInv(ms, s);
    RunKeepsAll(ms, s, actions);
    var r := Run(ms, s, actions).db;
    forall i, j | 0 <= i < j < |TradeLog(r.outbox)|
      ensures DifferentIds(TradeLog(r.outbox)[i], TradeLog(r.outbox)[j])
    {
      EventsDiffer(ms, r, i, j);
    }
  }

  /** The trades of every reachable state are numbered without gaps within each command and never share a match id. */
  lemma TradesAreNumbered(ms: Markets, s: State, actions: seq<Action>)
    requires Initial(ms, s)
    ensures Numbered(Run(ms, s, actions).db.trades) && MatchIdsUnique(Run(ms, s, actions).db.trades)
  {
    InitialInv(ms, s);
    RunKeepsAll(ms, s, actions);
  }
}
