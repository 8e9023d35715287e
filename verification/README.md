# Verification of the orbit exchange

A Dafny model of the exchange's money ledger, matching and settlement, of the
delivery protocol between its processes, and of its candles. The model follows
the TypeScript sources branch by branch; the statements are about all inputs,
all interleavings and all runs. `dafny verify dfyconfig.toml` checks everything.

## How the model is built

**Ledger and matching.** `Ledger` and `Settlement` give every database
transaction as a function from state to state: placing an order (validation,
conditional lock, order row, SUBMIT row), asking for a cancellation, SUBMIT
(limit order or level-by-level market sweep, settlement loop, events), CANCEL,
and the replay of open orders at boot. A write the database refuses aborts the
transaction: the database is unchanged, the in-memory book is not. `Exchange`
lets these steps interleave freely, together with commands that are lost after
any number of book operations and with restarts. One matcher lane per market
means that each command is one step. `OrderBook` is a reference book with
price-time priority standing for the book library, which is not part of the
repository; it is computed with, never assumed.

Prices and quantities count units of 10^-12, the scale of the Decimal(28, 12)
columns. Wallet amounts count units of 10^-28, so that price x quantity x basis
points is exact; `Grid` says when this exactness survives twelve decimals.

`Services` has the same code in the form it has in the repository: objects whose
methods change rows, books and counters in place, loops included. Each method is
proved equal to the transaction function of its step, so everything proved
about runs holds of the objects. `Requests`, `Depth` and `Announcements` say what
the API answers, what a MARKET order reaches and what the outbox tells, in terms
of requests, resting orders and rows.

**Delivery.** `RetryPolicy` is the policy around a handler, `Delivery` the state
machine of main topics, retry tier, dead letters, mirror table and admin replay
with rewinds and with publishes that fail before or after reaching the topic.
Messages carry an identity number used only by the statements. Admin requests are in flight
between their read, their publish and their update, so they can overlap.
`OutboxRelay` and `Dedupe` are machines of their own. `Pipeline` makes one machine
of exchange, relay and matcher, with every outbox row a row of the relay's table
and a position on every partition;
`Effects` puts the dedupe wrapper inside the retry policy.

**Candles.** `Candles` has the batch loop, the upserts and the derived intervals,
`Deliveries` what the loop is given after rewinds; `Timeframes` joins them.

## Results worth knowing

- A MARKET order that fills in part ends FILLED with leaveQty > 0, and a
  CANCELLED order keeps its leaveQty; both rows are final, and `locked` counts
  neither.
- Under aborts the books may show less than the database: resting quantity is at
  most leaveQty. Equality holds in committing runs and is stated for those: runs
  in which no settlement is aborted or lost and the matcher restarts only while
  every live limit order rests. Commands may come in any order, any number of
  times. `Commits` says which deliveries abort: the MARKET purchases that their
  buyer cannot pay.
- The comment on the retry policy promises a fresh in-flight budget after the
  retry tier. The code adds the attempt header to the count, so a message that
  comes back is run exactly once more.
- The candle aggregator calls replays naturally idempotent. That holds for the
  same batch. A row shows only the last delivery that had trades of its minute:
  with positive quantities it is right if and only if that delivery had all of
  them (`Deliveries.RowFollowsLog`), so a minute split over two batches is wrong
  until a rewind delivers it whole (`Deliveries.RewindHeals`).
- The monitor's rows are resolved once only while requests do not overlap. A
  dismissal that completes between a replay's read and its publish is overwritten,
  and the dismissed row is sent (`Lineage.DismissedButReplayed`).
- The dedupe wrapper inside the retry policy can let a message go whose effect
  never happened: a delivery that finds the key of a call that failed counts as
  handled (`Effects.FailedDelLoses`, `Effects.LosesExactly`).
- A row whose send fails is overtaken by the next rows of its batch; lost
  acknowledgements and crashes never break the order (`OutboxRelay.InOrderExactly`).
- An admin replay looks for the header `x-orbit-original-key`. Nothing in the
  pipeline writes it, so the key is the original offset
  (`ReplayKeys.ReplaysUseTheOffset`).
- A limit of 0 on a derived interval cuts nothing, because slicing from -0
  keeps everything (`Candles.DerivedShape`). The lookback is 0 as well, so there
  are rows to keep only when a candle opens at or after the reader's clock.
- On BTC-USDT twelve decimals are not enough (`Grid.UsdtLeavesTheGrid`); on the
  KRW markets they are. `OffGrid.GridIsExact` is the equivalence over runs.
- A restart puts orders of one price back by id, so time priority survives it
  exactly where ids ascend within each price (`IdOrder`).

## Model

| member | source | states |
|---|---|---|
| `Exchange.LockedIsReserved` | apps/matcher/src/settler/settler.service.ts:110-227 | In every state reachable by any interleaving of requests, processed, repeated, aborted and half-processed commands and restarts, every wallet's `locked` is exactly the sum of the reservations of its owner's OPEN/PARTIAL orders (LIMIT BID: price x leaveQty in quote; any ASK: leaveQty in base; MARKET BID: nothing), and neither `locked` nor `balance` is negative |
| `Exchange.AssetsConserved` | apps/matcher/src/settler/settler.service.ts:316-417 | Over every such run, per asset, all balances and locked amounts plus the fees recorded on the trade rows stay constant |
| `Flows.WalletsAreTheirTrades` | apps/matcher/src/settler/settler.service.ts:316-417 | Wallet by wallet, over every such run: locked is the reservations of its live orders, and balance is the opening balance plus the signed flows of the trade rows at that wallet, fees included, less those reservations |
| `Exchange.RunKeepsAll` | apps/matcher/src/settler/settler.service.ts:71-230 | The invariant behind both: wallets, orders, trades, outbox and books stay consistent (every resting id is a live limit order of that market, side and price, resting no more than its leaveQty; books uncrossed), assets are conserved, orders only move forward |
| `LedgerFacts.SettleFillConserves` | apps/matcher/src/settler/settler.service.ts:316-417 | One settled trade takes exactly the buyer's recorded fee in base and price x the seller's recorded fee in quote, and moves everything else between wallets |
| `SettleFacts.SettleFillsLocks` | apps/matcher/src/settler/settler.service.ts:306-435 | Settling a command's trades unlocks exactly what the makers and the taker had reserved for the traded quantities |
| `SettleFacts.SettleFillsConserve` | apps/matcher/src/settler/settler.service.ts:306-435 | Conservation over the whole settlement loop |
| `SettleFacts.SettleFillsRows` | apps/matcher/src/settler/settler.service.ts:306-435 | The loop writes one trade row per trade, numbered on from the shared counter, and each maker's row exactly once; no other row changes |
| `SettleFacts.SettleFillSucceeds` | apps/matcher/src/settler/settler.service.ts:350-430 | With locks in order and the match id free, one trade settles if and only if its taker is not a MARKET buyer whose balance, plus what it sells to itself in this trade, is short of the cost |
| `Commits.SettleFillsSucceed` | apps/matcher/src/settler/settler.service.ts:306-435 | The same for the whole loop: it is refused exactly to a MARKET buyer who cannot pay trade by trade from its running balance |
| `Commits.CanPayIsCost` | apps/matcher/src/settler/settler.service.ts:363-368 | For a buyer who meets no order of its own the trade-by-trade condition is: the balance covers the cost of the walk |
| `SubmitProof.SubmitKeeps` | apps/matcher/src/settler/settler.service.ts:71-168 | A SUBMIT command keeps the invariant, conserves assets and only moves orders forward whatever its outcome; if it does not commit, the database is unchanged |
| `SubmitProof.SweepCommitted` | apps/matcher/src/settler/settler.service.ts:254-285 | A committed level-by-level sweep amounts to one settlement of everything the sweep traded, with one continuous numbering |
| `SubmitProof.SweepKeepsBookOk` | apps/matcher/src/settler/settler.service.ts:254-285 | However far an aborted sweep gets, the book stays covered by the unchanged order rows |
| `Exchange.CancelKeeps` | apps/matcher/src/settler/settler.service.ts:171-230 | A CANCEL command keeps the invariant, conserves assets and only moves orders forward, whatever its outcome |
| `Exchange.PlaceKeeps` | apps/api/src/order/order.service.ts:78-150 | Placing an order keeps the invariant: what is locked is exactly what the new order reserves |
| `Exchange.AskCancelKeeps` | apps/api/src/order/order.service.ts:152-185 | Asking for a cancellation keeps the invariant |
| `Exchange.FailKeeps` | apps/matcher/src/consumer/command-consumer.service.ts:128-134 | A command whose transaction is lost after any number of book operations keeps the invariant: the database stays, the book change stays too |
| `Exchange.RestartKeeps` | apps/matcher/src/matching/matching-engine.service.ts:99-115 | A restart at any moment keeps the invariant |
| `Exchange.OpenOrdersExact` | apps/matcher/src/matching/matching-engine.service.ts:100-103 | The replay list holds exactly the OPEN/PARTIAL limit orders, ascending by id |
| `Lifecycle.OrderMovesForward` | apps/matcher/src/settler/settler.service.ts:419-430 | At any two moments of any run: filledQty + leaveQty = quantity, fills never shrink, terms never change, FILLED and CANCELLED rows never change again |
| `Lifecycle.CancelReleasesReservation` | apps/matcher/src/settler/settler.service.ts:198-222 | A committed CANCEL moves exactly the order's reservation from locked to balance and changes nothing of the row but its status |
| `Lifecycle.FinishedIsFinal` | apps/matcher/src/settler/settler.service.ts:97-100 | A command for a FILLED or CANCELLED order changes nothing |
| `Lifecycle.SkippedExactly` | apps/matcher/src/settler/settler.service.ts:71-100 | A command is skipped, and changes nothing, if and only if its order or market is not there, its order is FILLED or CANCELLED, or it is a SUBMIT under another command id than the order's own |
| `Lifecycle.RefusedExactly` | apps/matcher/src/settler/settler.service.ts:110-120 | A SUBMIT is refused if and only if it is of a limit order that rests already |
| `Lifecycle.CancelOvertakesSubmit` | apps/matcher/src/settler/settler.service.ts:177-222 | With CANCEL before SUBMIT the reservation is released, nothing trades or rests, and the next SUBMIT or CANCEL changes nothing |
| `Lifecycle.ReleasedOnce` | apps/matcher/src/settler/settler.service.ts:177-222 | Over every run, however SUBMITs and CANCELs of an order are ordered and repeated between aborts and restarts, at most one CANCEL of it commits, none once it is FILLED or CANCELLED |
| `Lifecycle.FinishedNeverRests` | apps/matcher/src/matching/matching-engine.service.ts:99-115 | From the moment an order is FILLED or CANCELLED it is in no book at any later point of the run |
| `Accounting.LimitBidAccounted` | apps/matcher/src/settler/settler.service.ts:350-417 | For a limit BID over every run, price x quantity = quote paid on its fills + refunds for better prices + what its CANCELs released + what is still locked; released is price x leaveQty if CANCELLED and otherwise nothing, locked is price x leaveQty while live and otherwise nothing, and no single refund is negative |
| `Accounting.LimitAskAccounted` | apps/matcher/src/settler/settler.service.ts:350-417 | For a limit ASK likewise: quantity = sold + released + still locked, in base |
| `Releases.ReleasedExactly` | apps/matcher/src/settler/settler.service.ts:198-222 | Over every run the CANCELs of a limit order have taken out of locked exactly what it has left if it is CANCELLED, and nothing otherwise; it becomes CANCELLED in no other way |
| `Accounting.RefundPerTrade` | apps/matcher/src/settler/settler.service.ts:350-417 | Every trade row of an order is at a price within the order's limit, so each refund has the right sign |
| `Accounting.LimitAskProceeds` | apps/matcher/src/settler/settler.service.ts:350-417 | A limit ASK's gross proceeds are at least price x filledQty over its whole life |
| `OrderBook.MatchTotal` | apps/matcher/src/settler/settler.service.ts:115-120 | Trade quantities plus the remainder equal the incoming quantity |
| `OrderBook.MatchShape` | apps/matcher/src/settler/settler.service.ts:115-120 | Matching takes the queue in priority order: whole entries first, at most one partial, and stops only when satisfied or at the limit |
| `OrderBook.FillsAcceptable` | apps/matcher/src/settler/settler.service.ts:115-120 | Every trade is at a price the taker's limit accepts |
| `OrderBook.AddKeepsWellFormed` | apps/matcher/src/settler/settler.service.ts:115-120 | Adding an order keeps both queues in price-time order, ids unique and the book uncrossed |
| `OrderBook.CancelKeepsWellFormed` | apps/matcher/src/settler/settler.service.ts:187-195 | Removing an order keeps the book well-formed |
| `Reboots.LevelsMean` | apps/matcher/src/matching/matching-engine.service.ts:90-97 | The depth levels are strictly ordered best first and list exactly the prices on offer with their exact sums |
| `MarketSweep.SweepRefinesWalk` | apps/matcher/src/settler/settler.service.ts:246-285 | The sweep of synthetic limit orders is one direct walk through the opposing queue: same trades in the same order, same queue afterwards, exactly min(quantity, depth of the listed levels) filled, nothing synthetic left resting |
| `MarketSweep.SweepNotRefused` | apps/matcher/src/settler/settler.service.ts:254-268 | With its synthetic ids free the sweep is never refused |
| `Depth.TopLevelsList` | apps/matcher/src/matching/matching-engine.service.ts:90-97 | The depth snapshot lists a price, with its whole quantity and best first, if and only if it has orders and fewer than fifteen distinct better prices have |
| `Depth.MarketFills` | apps/matcher/src/settler/settler.service.ts:246-301 | A committed MARKET order has filled the smaller of its quantity and what rests at prices with fewer than fifteen distinct better ones; it is CANCELLED if that was nothing and FILLED otherwise |
| `Depth.SnapshotShowsBook` | apps/matcher/src/settler/settler.service.ts:564-586 | The last row a committed command appends lists both sides of its market's book after it, each in this sense |
| `MarketSweep.WholeLevelExposesNext` | apps/matcher/src/settler/settler.service.ts:256-279 | Taking the whole best level exposes the next one of the snapshot |
| `MarketSweep.SweepIdsDistinct` | apps/matcher/src/settler/settler.service.ts:251-262 | For order ids below 10^9 the synthetic ids of all orders are distinct, above every real id and below 2^53 |
| `Commits.SmallIdsLeaveSweepFree` | apps/matcher/src/settler/settler.service.ts:251-262 | In every consistent state with order ids below 10^9 no synthetic id collides with a resting order |
| `Commits.LimitOutcome` | apps/matcher/src/settler/settler.service.ts:110-138 | A limit order's SUBMIT is refused exactly if its id rests already, and commits exactly if it does not rest and either trades nothing or its first match id is unused |
| `Commits.OpenLimitCommits` | apps/matcher/src/settler/settler.service.ts:110-138 | A limit order that is OPEN and does not rest always commits |
| `Commits.MarketOutcome` | apps/matcher/src/settler/settler.service.ts:139-152 | A MARKET order commits if and only if it is a sale or its buyer can pay trade by trade for the whole walk, purchases from itself and coinciding assets included |
| `Commits.LiveCancelCommits` | apps/matcher/src/settler/settler.service.ts:198-222 | A CANCEL of a live order always commits: what it gives back is locked |
| `Commits.OnlyUnpaidPurchasesAbort` | apps/matcher/src/settler/settler.service.ts:71-230 | Of all deliveries of commands whose order is over, or OPEN and not resting, exactly the MARKET purchases the buyer cannot pay abort |
| `Once.EffectivelyOnce` | apps/matcher/src/settler/settler.service.ts:86-100 | In committing runs from the start, any number of restarts included, erasing every repeated command gives the same wallets, orders, trades, outbox and books |
| `Once.RepeatsErased` | apps/matcher/src/settler/settler.service.ts:86-100 | The same from any synchronised state |
| `InSync.RepeatIsNoop` | apps/matcher/src/settler/settler.service.ts:97-100 | A repeated command leaves the whole state as it is |
| `Once.BookIsExact` | apps/matcher/src/matching/matching-engine.service.ts:10-18 | In committing runs, restarts included, an order rests exactly if it is a live limit order whose SUBMIT was processed, for exactly its database leaveQty, and the book is never crossed |
| `Once.OutstandingMeans` | apps/matcher/src/matching/matching-engine.service.ts:99-115 | The condition for a restart in a committing run, every live limit order rests, says that every live limit order's SUBMIT was processed |
| `Pipeline.RelayedEffectivelyOnce` | apps/workers/src/outbox-relay/index.ts:88-141 | Exchange, relay and matcher as one machine over one outbox and a command topic partitioned by market: however requests, relay passes, crashes, repeats, deliveries from the partitions, redeliveries, restarts and the matcher's own events interleave, in committing runs without overtaking and with fresh command ids on cancellations, the exchange ends where its history with repeated commands erased leads, and of every partition and of every market the commands kept are those of its first outbox rows, each once, in commit order |
| `Pipeline.MovesDistinct` | apps/api/src/order/order.service.ts:152-185 | With fresh ids on cancellations no two rows of the outbox hold the same command |
| `Once.RestartRestoresBooks` | apps/matcher/src/matching/matching-engine.service.ts:99-115 | After a committing run, earlier restarts included, with no limit SUBMIT outstanding, a restart gives the same resting quantity of every id and the same fifteen-level snapshot, and the very same queue if and only if its ids ascend within each price |
| `IdOrder.RestartRestoresQueues` | apps/matcher/src/matching/matching-engine.service.ts:99-115 | After such a run in which the limit orders of one market, side and price were first submitted in ascending id order, a restart gives the very same queues |
| `IdOrder.RunInIdOrder` | apps/matcher/src/matching/matching-engine.service.ts:99-115 | Over such runs every queue keeps its ids ascending within each price, through trades, cancellations, repeats and restarts |
| `Reboots.RestartSync` | apps/matcher/src/matching/matching-engine.service.ts:99-115 | Such a restart leaves the books in step with the database |
| `Reboots.ReplayNeverTrades` | apps/matcher/src/matching/matching-engine.service.ts:104-113 | In that situation no replayed order trades or is refused |
| `Numerals.TradesAreNumbered` | apps/matcher/src/settler/settler.service.ts:254-274 | In every reachable state the trades of a command are numbered 0, 1, 2, ... without gaps, even across several settlement calls, and no two trades share a match id |
| `Numerals.EventIdsAreDistinct` | apps/matcher/src/settler/settler.service.ts:513-563 | In every reachable state the trade events in the outbox are those of the trade rows, in order, and no two of all trade, taker and maker events carry the same event id |
| `Numerals.EventIdDeterminesEvent` | apps/matcher/src/settler/settler.service.ts:517-560 | The text `<command>#<n>` with its suffix determines command, number and kind of event, for command ids without `#` |
| `Numerals.EventIdTexts` | apps/matcher/src/settler/settler.service.ts:513-563 | The texts: `<command>#<n>`, with `:taker` and `:maker` for the notices, n in decimal |
| `Announcements.TradeEventsTell` | apps/matcher/src/settler/settler.service.ts:511-563 | In every reachable state each trade event tells of a recorded trade with its price and quantity, each notice names the order of that side and the user who placed it, and every trade has its three events |
| `Announcements.SubmitAnnounces` | apps/matcher/src/settler/settler.service.ts:481-510 | A committed SUBMIT first announces the order with the leaveQty, filledQty and status its row then has |
| `Announcements.CancelAnnounces` | apps/matcher/src/settler/settler.service.ts:592-652 | A committed CANCEL appends the order's leaveQty and filledQty, then a notice to its owner, then the snapshot |
| `Decimals.NatTextRoundTrip` | apps/matcher/src/settler/settler.service.ts:330 | The decimal text of a number parses back to it |
| `Grid.TwelveDecimalsLoseNothing` | apps/matcher/src/settler/settler.service.ts:317-416 | On grid markets, from wallets with twelve decimals, every wallet amount and fee of every reachable state has twelve decimals, aborted commands and restarts included |
| `Grid.GridMarketExact` | apps/api/src/order/order.service.ts:206-219 | A market is a grid market if and only if every amount written for every limit order the API accepts has twelve decimals |
| `OffGrid.GridIsExact` | apps/matcher/src/settler/settler.service.ts:316-417 | For enabled markets with positive tick and step and fees between none and all: every wallet and fee of every run has twelve decimals if and only if every market is a grid market |
| `Grid.DivisibleMarket` | apps/api/src/order/order.service.ts:206-219 | Sufficient whatever the fees: step x 10^-4 and tick x step x 10^-4 are multiples of 10^-12 |
| `Grid.SeededMarkets` | apps/api/prisma/seed.ts:17-48 | BTC-KRW and ETH-KRW are grid markets, BTC-USDT is not |
| `Grid.UsdtLeavesTheGrid` | apps/api/prisma/seed.ts:36-44 | On BTC-USDT a concrete run of two orders and one trade ends with a wallet amount that twelve decimals cannot hold |
| `Services.Store.WalletUpdate` | apps/matcher/src/settler/settler.service.ts:351-354 | An update of a missing row or one that breaks a CHECK is refused and changes nothing |
| `Services.Store.WalletUpsert` | apps/matcher/src/settler/settler.service.ts:437-449 | The credit creates a missing row |
| `Services.Store.LockFunds` | apps/api/src/order/order.service.ts:264-281 | The conditional update locks if and only if the row exists and the balance suffices |
| `Services.Store.TradeCreate` | apps/matcher/src/settler/settler.service.ts:332-348 | A used match id is refused |
| `Services.Store.OrderUpdate` | apps/matcher/src/settler/settler.service.ts:420-430 | Writes one order row; a missing row is refused |
| `Services.Store.OrderCreate` | apps/api/src/order/order.service.ts:108-119 | A used id or command id is refused |
| `Services.Store.Publish` | apps/api/src/kafka/outbox-publisher.service.ts:31-50 | Appends one outbox row in the caller's transaction |
| `Services.MatchingEngine.EnsureBook` | apps/matcher/src/matching/matching-engine.service.ts:90-97 | Creates an empty book on first use and changes no other |
| `Services.MatchingEngine.Boot` | apps/matcher/src/matching/matching-engine.service.ts:43-49 | After boot every book is the one rebuilt from the open orders, every enabled market has one, and the engine is ready |
| `Services.MatchingEngine.ReplayOpenOrders` | apps/matcher/src/matching/matching-engine.service.ts:99-115 | The replay loop rebuilds the books of the specification |
| `Services.SettlerService.MakerSettlement` | apps/matcher/src/settler/settler.service.ts:350-377 | The maker's wallet writes, or refusal |
| `Services.SettlerService.TakerSettlement` | apps/matcher/src/settler/settler.service.ts:379-417 | The taker's wallet writes, or refusal |
| `Services.SettlerService.SettleTrade` | apps/matcher/src/settler/settler.service.ts:316-432 | One iteration of the settlement loop |
| `Services.SettlerService.SettleTrades` | apps/matcher/src/settler/settler.service.ts:306-435 | The loop with its shared counter computes the specified settlement or fails exactly when that does |
| `Services.SettlerService.SweepBook` | apps/matcher/src/settler/settler.service.ts:246-285 | The loop over the levels with `remaining` and the id counter computes the specified sweep, book changes of a failed one included |
| `Services.SettlerService.CloseMarketOrder` | apps/matcher/src/settler/settler.service.ts:287-301 | The final row: CANCELLED when nothing filled, FILLED otherwise even with leaveQty left, the unfilled base of an ASK unlocked |
| `Services.SettlerService.PublishSubmitEvents` | apps/matcher/src/settler/settler.service.ts:481-586 | The outbox rows of a SUBMIT, in order |
| `Services.SettlerService.SettleSubmit` | apps/matcher/src/settler/settler.service.ts:71-168 | The whole SUBMIT as one transaction with rollback: new state and outcome are those of the specification |
| `Services.SettlerService.PublishCancelEvents` | apps/matcher/src/settler/settler.service.ts:592-652 | The outbox rows of a CANCEL, in order |
| `Services.SettlerService.SettleCancel` | apps/matcher/src/settler/settler.service.ts:171-230 | The whole CANCEL as one transaction with rollback |
| `Services.CommandConsumer.HandleMessage` | apps/matcher/src/consumer/command-consumer.service.ts:85-143 | Dispatch; a failed settlement is swallowed as `error`, a skipped one is `noop` unless it is a CANCEL of an order that is over, unreadable messages are ignored |
| `Services.OrderService.ValidateTickStep` | apps/api/src/order/order.service.ts:206-219 | The checks in their order; none fails if and only if quantity and price are whole steps and ticks and a limit order reaches the minimum notional |
| `Services.OrderService.LockReservation` | apps/api/src/order/order.service.ts:221-238 | Locks what the new order needs, nothing for a MARKET BID |
| `Services.OrderService.Submit` | apps/api/src/order/order.service.ts:78-150 | Accepted, with lock, order and SUBMIT row written, if and only if user, market, figures, funds and ids are in order; otherwise nothing is written and the first failing check is reported |
| `Services.OrderService.Cancel` | apps/api/src/order/order.service.ts:152-185 | Appends the CANCEL row if and only if the order is this user's and OPEN or PARTIAL |
| `Requests.AcceptedExactly` | apps/api/src/order/order.service.ts:78-150 | A request is accepted if and only if its user is not frozen, its market is enabled, quantity and limit price are positive and on step and tick, a limit order reaches the minimum notional, what it reserves is free, and its ids are unused |
| `Requests.AcceptedLeaves` | apps/api/src/order/order.service.ts:100-150 | It leaves an OPEN order with these terms and nothing filled, and its SUBMIT row |
| `Requests.FirstFailingCheck` | apps/api/src/order/order.service.ts:82-99 | A request is refused with the error of the first check it fails |
| `Requests.AfterTheChecks` | apps/api/src/order/order.service.ts:100-135 | One that passes them all is refused only for want of funds or else of fresh ids |
| `Requests.RowsWerePlaced` | apps/api/src/order/order.service.ts:78-150 | Over every run each order row was placed by its owner, not frozen then, with a request that met every check, and its figures still show tick, step, minimum notional and an enabled market |
| `Requests.CancelAnswered` | apps/api/src/order/order.service.ts:152-185 | Not found if and only if the order is missing or another user's; not active if and only if it is the user's and over; accepted otherwise, with exactly the CANCEL row appended |
| `Requests.CancelsWereAskedFor` | apps/api/src/order/order.service.ts:152-185 | Over every run each CANCEL in the outbox was asked for by the order's owner at a moment when the order was OPEN or PARTIAL |
| `RetryPolicy.RetryingConsumer.WithRetryPolicy` | packages/observability/src/retry-policy.ts:109-198 | Counter map, published copy and whether the offset advances, for every outcome of handler and publish |
| `RetryPolicy.MaterializeHeaders` | packages/observability/src/retry-policy.ts:223-233 | Exactly the textual headers survive |
| `RetryPolicy.CopyCarriesOn` | packages/observability/src/retry-policy.ts:157-183 | A copy keeps key, value and every textual header the policy does not write, names the original topic and carries the incremented attempt |
| `RetryPolicy.StayIsExact` | packages/observability/src/retry-policy.ts:123-139 | One stay of a message that always fails takes exactly max(budget - header attempt, 0) + 1 runs, less those already counted, whatever the errors |
| `RetryPolicy.OtherCountsKept` | packages/observability/src/retry-policy.ts:113-139 | Deciding about one message never touches the count of another |
| `RetryPolicy.CountedWhileItLasts` | packages/observability/src/retry-policy.ts:113-139 | The in-memory count of a message is one more after a delivery that comes again and gone once its stay has ended, by success or by being handed on |
| `RetryPolicy.FirstValueCounts` | packages/observability/src/retry-policy.ts:200-222 | A header reads as its text, and a list of values as its first one if that is a text |
| `Provenance.CopySays` | packages/observability/src/retry-policy.ts:157-183 | The copy that leaves a place names its topic, partition and offset, the attempt, the worker, the error cut to 1000 characters and, for the retry tier, when to come back |
| `Provenance.DeadLettersSayWhere` | packages/observability/src/retry-policy.ts:157-183 | In every reachable state a dead letter names the lane position its last stay ended at, where the same message lies, and the monitor's row for it carries that topic, partition and offset, the worker and the error |
| `Provenance.UnaddressedMirrored` | apps/workers/src/dlq-monitor/index.ts:40-77 | A dead letter nobody addressed is mirrored under the dead-letter topic, its own partition and offset and the default texts |
| `Provenance.BouncedKeeps` | apps/workers/src/retry-30s/index.ts:43-88 | The retry worker drops a message if and only if it has no value or names no topic; otherwise it goes back to that topic with key, value and every textual header |
| `Provenance.ReplayCarries` | apps/api/src/admin/dlq/admin-dlq.service.ts:157-186 | A replay carries the trace context on, the row's id and nothing else, under the original key if the row has one and else the original offset |
| `NoLoss.NothingIsLost` | packages/observability/src/retry-policy.ts:119-197 | Over every run with crashes, rewinds, failed and half-failed publishes: a message that entered a main topic with a value was handled, or an unconsumed copy is on a main or the retry topic, or it is a dead letter, with the key, value and topic it came with |
| `NoLoss.StepKeeps` | packages/observability/src/retry-policy.ts:119-197 | The invariant behind it, over every step of consumers, retry worker, monitor and admin |
| `NoLoss.SuccessMeansHandled` | packages/observability/src/retry-policy.ts:119-126 | A message counts as handled only by a successful run of its handler |
| `Attempts.DeadLettersCountExactly` | packages/observability/src/retry-policy.ts:123-183 | Without rewinds and failed publishes a dead letter's attempt header is the number of its handler runs: budget + 1 if it never saw the retry tier, budget + 2 if it did, which is at most once |
| `Attempts.RunsAreBounded` | packages/observability/src/retry-policy.ts:123-183 | In such runs no message is run more than budget + 2 times or visits the retry tier twice |
| `Attempts.TierByLastError` | packages/observability/src/retry-policy.ts:146-153 | An escalation goes to the retry tier exactly if its error is transient and the message has not been there |
| `Drain.WorkLowers` | packages/observability/src/retry-policy.ts:123-197 | Every undisturbed delivery step lowers a non-negative measure |
| `Drain.PipelineComesToRest` | packages/observability/src/retry-policy.ts:123-197 | After any run, however disturbed, the undisturbed steps that can follow, offset commits anywhere between them, are bounded by the measure |
| `Drain.FailedMessagesAreDead` | packages/observability/src/retry-policy.ts:119-197 | Without rewinds and failed publishes, once the pipeline is at rest a message that never succeeded is on the dead-letter topic, with runs = attempt header = budget + 1 + visits to the retry tier, of which there is at most one |
| `Drain.LastAttemptByKind` | packages/observability/src/retry-policy.ts:146-183 | If the errors such a message is handed on with are all permanent it is dead at attempt = runs = budget + 1, if they are all transient at budget + 2 |
| `Drain.RestIsZero` | packages/observability/src/retry-policy.ts:123-197 | The measure is zero exactly when nothing is pending |
| `Drain.PendingWorks` | packages/observability/src/retry-policy.ts:123-197 | While something is pending some step is possible |
| `Delivery.RetryWorker.HandleMessage` | apps/workers/src/retry-30s/index.ts:43-88 | Republishes to the original topic with all textual headers, drops what has no value or no original topic, and asks for redelivery when the publish fails |
| `Delivery.DlqTable.MirrorMessage` | apps/workers/src/dlq-monitor/index.ts:40-83 | The stored row of a dead letter; none where the partition or attempt header is no number and the insert fails |
| `Delivery.DlqTable.ReadOpen` | apps/api/src/admin/dlq/admin-dlq.service.ts:150-155 | The read both requests begin with: unknown and resolved rows are refused |
| `Delivery.DlqTable.SendBack` | apps/api/src/admin/dlq/admin-dlq.service.ts:157-186 | The publish of a replay: topic, key, payload and the clean headers |
| `Delivery.DlqTable.MarkResolved` | apps/api/src/admin/dlq/admin-dlq.service.ts:188-195 | The update both requests end with, whatever the row holds by then |
| `Delivery.DlqTable.ReplayEvent` | apps/api/src/admin/dlq/admin-dlq.service.ts:150-202 | Alone on its row: publish first, then mark; refused when unknown or resolved; unresolved when either step fails |
| `Delivery.DlqTable.DismissEvent` | apps/api/src/admin/dlq/admin-dlq.service.ts:204-219 | Alone on its row: marks an unresolved row |
| `Lineage.ReplayLinksFormForest` | apps/workers/src/dlq-monitor/index.ts:50-71 | In every reachable state a row's parent has a smaller id, the same payload and the same topic |
| `Lineage.ChainsEnd` | apps/workers/src/dlq-monitor/index.ts:50-71 | Every chain of replays goes strictly down to a row that is not a replay |
| `Lineage.MirroredWithParent` | apps/workers/src/dlq-monitor/index.ts:50-71 | A dead letter that carries a replay mark is mirrored with that row's id, payload and topic |
| `Lineage.ReplayedThenDead` | apps/workers/src/dlq-monitor/index.ts:50-71 | If row id was sent back, then after any run whatever every dead letter of that message is mirrored with replayedFrom = id and the row's payload and topic |
| `Lineage.MarkStays` | apps/workers/src/dlq-monitor/index.ts:50-71 | Over every run all copies of a message keep the mark it has |
| `Lineage.CopyKeepsMark` | packages/observability/src/retry-policy.ts:168-183 | The replay marker survives an escalation unchanged |
| `Lineage.BounceKeepsMark` | apps/workers/src/retry-30s/index.ts:66-79 | And the way back through the retry tier |
| `Lineage.ReplayStartsOver` | apps/api/src/admin/dlq/admin-dlq.service.ts:157-186 | A replayed message has no attempt header, the row's payload and the row's id as marker |
| `ReplayKeys.ReplaysUseTheOffset` | apps/api/src/admin/dlq/admin-dlq.service.ts:176-186 | As long as no producer writes the original-key header, a replay enters its topic under the row's original offset, after every run |
| `Lineage.ResolvedIsFinal` | apps/api/src/admin/dlq/admin-dlq.service.ts:150-219 | From the start, in every run in which no request begins beside another one for its row, a resolved row is never sent or written again |
| `Lineage.ResolvedIsFinalExactly` | apps/api/src/admin/dlq/admin-dlq.service.ts:150-219 | From any state that holds for every continuation if and only if no two requests for one row are in flight and none for a resolved row |
| `Lineage.DismissedButReplayed` | apps/api/src/admin/dlq/admin-dlq.service.ts:150-219 | The overlap, for every unresolved row: a dismissal completes between a replay's read and its publish, the dismissed row is sent and ends as replayed |
| `Lineage.OnlyTouchesChange` | apps/api/src/admin/dlq/admin-dlq.service.ts:150-219 | A stored row changes, and a message is put back, only by the publish or the update of a request |
| `OutboxRelay.OutboxRelayWorker.DrainOnce` | apps/workers/src/outbox-relay/index.ts:88-145 | The loop over one fetched batch, for every fate of every row |
| `OutboxRelay.OutboxRelayWorker.FetchUnprocessed` | apps/workers/src/outbox-relay/index.ts:93-98 | The oldest unprocessed rows in id order, at most a batch |
| `OutboxRelay.RepeatsAreBounded` | apps/workers/src/outbox-relay/index.ts:70-141 | In every run repeats number at most the publishes not followed by their mark (crashes, failed marks, lost acknowledgements), and every processed row was published |
| `OutboxRelay.AttemptsAreFailures` | apps/workers/src/outbox-relay/index.ts:126-141 | Over every run the attempts of a row count its failed or seemingly failed relays, and its payload stays |
| `OutboxRelay.InOrderExactly` | apps/workers/src/outbox-relay/index.ts:93-141 | The published sequence with repeats erased is a prefix of the table in id order if and only if no unpublished row is sent behind a failed unpublished row of its batch |
| `OutboxRelay.FailedSendOvertakes` | apps/workers/src/outbox-relay/index.ts:126-141 | The order does fail: a concrete run in which the second row of a batch goes out before the first |
| `OutboxRelay.SendsThatReachKeepOrder` | apps/workers/src/outbox-relay/index.ts:126-141 | Crashes, failed marks and lost acknowledgements never break the order; only a send that does not reach its topic can |
| `OutboxRelay.BacklogDrains` | apps/workers/src/outbox-relay/index.ts:70-80 | Fault-free passes drain any finite backlog |
| `OutboxRelay.PassDrains` | apps/workers/src/outbox-relay/index.ts:88-145 | A fault-free pass publishes the oldest rows in order, a full batch if there are that many |
| `Dedupe.WithDedupe` | packages/observability/src/dedupe.ts:56-100 | One call: when the handler runs, what it returns and which key is left behind; and after any history of calls, a call for an event that no call of this worker was for is not skipped |
| `Dedupe.KeysAreApart` | packages/observability/src/dedupe.ts:67-72 | For workers without a colon in their name a key belongs to one worker and one event |
| `Dedupe.KeysComeFromCalls` | packages/observability/src/dedupe.ts:67-99 | A key is there only through a call of its own worker for its own event |
| `Dedupe.CompletionsAreBounded` | packages/observability/src/dedupe.ts:67-99 | However replicas interleave, one event completes at most 1 + runs let through by an unreachable store + expiries |
| `Dedupe.ExpiryLetsASecondComplete` | packages/observability/src/dedupe.ts:74-99 | The bound is reached: a concrete run with one expiry and two completions |
| `Dedupe.ThrowLetsNextRun` | packages/observability/src/dedupe.ts:87-99 | After a handler threw, the next delivery runs if and only if the key was given back or had expired |
| `Effects.NoEffectIsLost` | apps/workers/src/notification/index.ts:49-80 | The wrapper inside the policy, over every run with crashes, rebalances, overlapping calls, expiries and failed publishes in which no delivery meets a poisoned key (present, its handler never returned): every message has had its effect, or a copy is still to be consumed or a dead letter |
| `Effects.KeyAfter` | packages/observability/src/dedupe.ts:67-99 | A step takes, leaves or gives back the key text of its own event in the shared store, and no step of another event, no other worker and no expiry of another key touches it |
| `Effects.LosesExactly` | apps/workers/src/notification/index.ts:49-80 | One step loses a message if and only if it delivers the message's last copy and finds its key poisoned |
| `Effects.StaleExactly` | packages/observability/src/dedupe.ts:67-99 | A key becomes stale (present, never completed, no owner running) exactly by an owner's throw whose DEL fails, an owner's death before its effect, or a SET that worked without a reply, with no other owner running |
| `Effects.StaleEnds` | packages/observability/src/dedupe.ts:67-99 | And ceases to be exactly by its expiry or by a finished run that the silent store let through |
| `Effects.TidyRunsLoseNothing` | apps/workers/src/notification/index.ts:49-80 | When every DEL succeeds, nobody dies in a handler, no SET works silently and no delivery begins beside a running one of its event, nothing is lost |
| `Effects.WorkersFollowDedupe` | packages/observability/src/dedupe.ts:56-100 | Seen from one event, a run of the workers is a run of the dedupe machine, given step by step, with the same key, the same running calls and the same counts of finished runs, runs let through and expiries |
| `Effects.EffectsAreBounded` | apps/workers/src/notification/index.ts:49-80 | Over every run of the workers the handler of one event comes to its end, by a return or before its replica dies, at most 1 + runs let through by the silent store + expiries of its key |
| `Effects.FailedDelLoses` | apps/workers/src/notification/index.ts:49-80 | The loss happens: a call throws while the store is gone, the next delivery finds the key, and no copy and no effect remain |
| `Candles.CandleAggregator.Aggregate` | apps/workers/src/candle-aggregator/index.ts:74-118 | The bucket map is the per-minute specification of the handled prefix of the batch |
| `Candles.CandleAggregator.UpsertAll` | apps/workers/src/candle-aggregator/index.ts:148-178 | All upserts of a batch; an existing row keeps its `open` |
| `Candles.CandleAggregator.EachBatch` | apps/workers/src/candle-aggregator/index.ts:71-193 | The offset moves only after the upserts committed |
| `Candles.OhlcvMeans` | apps/workers/src/candle-aggregator/index.ts:103-118 | A candle is first, largest, smallest and last price and the sum of quantities |
| `Candles.MinuteOfTrade` | apps/workers/src/candle-aggregator/index.ts:89-93 | A trade belongs to the minute its time stamp in milliseconds falls in |
| `Candles.TradesOfConcat` | apps/workers/src/candle-aggregator/index.ts:74-88 | The readable trades of a batch, in order |
| `Candles.CandleIsUnique` | apps/workers/src/candle-aggregator/index.ts:103-118 | And that determines it |
| `Candles.ReprocessingIsIdempotent` | apps/workers/src/candle-aggregator/index.ts:148-178 | Re-processing the same batch changes nothing |
| `Deliveries.RowFollowsLog` | apps/workers/src/candle-aggregator/index.ts:71-193 | With positive quantities, for batches that are any stretches of the log, cut anew after every rewind and with trades that arrived meanwhile: a row is the candle of its minute's trades read so far if and only if the last delivery that had any of them had all of them; otherwise it shows too little volume |
| `Deliveries.TableFollowsLog` | apps/workers/src/candle-aggregator/index.ts:71-193 | And the table is that of the log if and only if this holds of every minute |
| `Deliveries.RowShows` | apps/workers/src/candle-aggregator/index.ts:148-178 | Whatever the quantities, a row is there exactly for the minutes read, its open is the minute's first trade and the rest is the candle of the last delivery that had any of the minute |
| `Deliveries.WholeDeliveryHeals` | apps/workers/src/candle-aggregator/index.ts:130-147 | A delivery with all of a minute's trades so far puts its row right, whatever was there |
| `Deliveries.RewindHeals` | apps/workers/src/candle-aggregator/index.ts:130-147 | Two trades of a minute delivered one by one leave a wrong row; delivered as the first and then both, a right one |
| `Deliveries.ApartIsWhole` | apps/workers/src/candle-aggregator/index.ts:130-178 | For whole batches that only come again unchanged before the next one, every minute is shown whole if and only if it lies in one batch |
| `Deliveries.BatchesAreDeliveries` | apps/workers/src/candle-aggregator/index.ts:130-178 | Such batches are deliveries, and write the same table |
| `Candles.TableIsExact` | apps/workers/src/candle-aggregator/index.ts:130-178 | For whole batches, each any number of times before the next one, and positive quantities, the table is exactly the specification of the stream if and only if no minute has trades in two batches |
| `Candles.RowIsExact` | apps/workers/src/candle-aggregator/index.ts:130-178 | For such batches row by row: a row is right if and only if its minute lies in one batch |
| `Candles.RowRight` | apps/workers/src/candle-aggregator/index.ts:130-178 | For such batches and any quantities, a row whose minute lies in one batch is right |
| `Candles.RowShort` | apps/workers/src/candle-aggregator/index.ts:130-178 | For such batches and positive quantities a row whose minute lay in two batches shows too little volume |
| `Candles.SplitMinute` | apps/workers/src/candle-aggregator/index.ts:130-147 | Whatever the quantities, a right row of any table stays right under a further batch of its minute if and only if the trades so far set neither high nor low and had no volume |
| `Candles.DerivedCandles` | apps/api/src/market/market.controller.ts:128-155 | The reading loop, sort and cut of a derived interval: the newest buckets, `take` of them or all, in order, each with the candle of its rows, and whatever is left out is older than whatever is returned |
| `Candles.OnlyFirstIsCut` | apps/api/src/market/market.controller.ts:123-155 | Only the oldest returned bucket can start before `since`, and only if no bucket was left out |
| `Candles.ReturnedRowsAgree` | apps/api/src/market/market.controller.ts:120-155 | For intervals of whole minutes and trades in any order, every returned bucket not starting before `since` has the high, low and volume of its trades; it is their candle if and only if the first and last of them in arrival order have the prices of the first and last minute by minute |
| `Candles.EveryTimeframeAgrees` | apps/api/src/market/market.controller.ts:120-155 | Such a bucket is the candle of its trades taken minute by minute, and is there exactly if it has trades |
| `Candles.ChronologicalAgrees` | apps/api/src/market/market.controller.ts:120-155 | Where trades arrive minute by minute it is the candle of its trades as they arrived |
| `Timeframes.DerivedIsExact` | apps/api/src/market/market.controller.ts:120-155 | End to end with positive quantities and any deliveries: a bucket derived from the written table is the candle of its trades read so far, taken minute by minute, if and only if the last delivery of each of its minutes had all of that minute's trades |
| `Candles.DerivedShape` | apps/api/src/market/market.controller.ts:153-155 | The output is strictly increasing in time and has at most `take` rows, except for a limit of 0 with rows to show |

## Left out

- The front ends, `design/`, the websocket gateway, authentication, metrics, tracing, logging and scripts: no protocol or money logic.
- Kafka, Prisma, Redis and SNS themselves: logs, maps and calls that may fail.
- The book library: the reference book states the contract it is used with; its own number type is not modelled, nor is aliasing of book objects (books are values held in the engine's map).
- decimal.js's 20-digit rounding and overflow of Decimal(28, 12): amounts are exact integers.
- `Trade.sequence`, row ids of trades, timestamps, random event ids, depth-event sequence numbers: no statement depends on them.
- The per-market queue object: each command is one step of the machine, which is what a queue of concurrency 1 provides.
- Admin wallet adjustment, admin outbox skip, tick, step and fee changes during a run: they step outside the ledger on purpose.
- Boot with SUBMITs outstanding and book/database equality after an aborted transaction: the code does not keep these; the weaker relation that it does keep is part of the invariant.
- Limits, prices and quantities that are not numbers: requests arrive parsed.
- `defaultClassify`: the kind of an error is arbitrary.
- Number texts with signs, exponents, white space or other radices in attempt, partition and lineage headers: they count as unreadable; leading digits of the partition and attempt headers are read as the monitor reads them.
- The waiting time of the retry tier: a message may come back at any moment.
- One consumer group per topic: with several groups a message put back on its topic is seen by all of them.
- A handler that throws before it enters the policy (an unparsable notification): the policy is not involved.
- Several relays at once and rows that commit out of id order: one relay, ids in commit order.
- The table query, pagination and presentation functions of the controllers, the idempotency interceptor, the snapshot throttle, the shutdown helper: they would only add easy members.
- A negative `limit` of the candles endpoint, and the M1 branch that returns stored rows as they are.
- Candles.ReturnedRowsAgree: does not cover the bucket in which `since` falls, which the query cuts.
- Deliveries.RowFollowsLog: is stated against the log as it is; a TRADE event that the relay publishes twice is two trades there, and the aggregator counts both.
- Topics and partition keys of outbox rows other than commands (commands are keyed by their market), fields of events that copy a row, and the error text the relay keeps with a row.
- Expiry times of dedupe keys and the cap of 1000 on a limit: a key may expire at any moment, a limit arrives capped.
- Who resolved a dead letter and when: a row only records that it was replayed or dismissed.
