# Deribit options delta hedger, modelled in Dafny

This project models the core of a bot that keeps a portfolio of BTC options
delta-neutral with the BTC perpetual future on the Deribit exchange. There
are three parts:

- **The data feed** (`data_feed.py`, class `DataFeed`). This is the local
  state the bot keeps:
  - the option order books, rebuilt from snapshots and incremental changes;
  - the open interest per option;
  - the perpetual's best bid and ask;
  - the account summary;
  - open orders, keyed by instrument and order id;
  - positions, kept up to date from trade fills;
  - the list of active option contracts.
- **The hedger** (`hedger.py`, class `DeltaHedge`). It:
  - computes the perpetual's delta and the options' dollar delta;
  - parses option names such as `BTC-25JUN21-40000-C`;
  - applies a tolerance gate;
  - builds the re-hedging limit order on the perpetual.
- **The websocket client** (`ws_client.py`, class `WSClient`). It covers:
  - the JSON-RPC request-id registry that routes replies back to the request
    they answer;
  - the requests the client sends: authentication, instruments, positions,
    open orders and subscription batches;
  - the readiness flags and the acknowledgement counters;
  - the reconnection back-off;
  - the routing of replies and channel notifications to the feed and the
    hedger.

**How Python behaviour is modelled**

- Python exceptions become values.
  - `Result<T>` is either a value or a fault.
  - `Outcome<S>` keeps the state next to the fault. The source mutates dicts
    in place, so a raise part-way through an operation leaves the earlier
    mutations behind, and the model keeps them.
- Python built-ins the code depends on are modelled explicitly:
  - `str.find`, slicing with negative and clamped bounds, and `s[-1]`;
  - `int()` on digit strings and `str()` of naturals;
  - `round()`, which rounds half to even.
- Prices and sizes are exact reals.

**Modules**

| module | file | what it holds |
|---|---|---|
| `Outcomes` | `outcomes.dfy` | Option, Fault, Result, Outcome |
| `PyText` | `pytext.dfy` | Python string built-ins |
| `Rounding` | `rounding.dfy` | `round` and `round(x, 2)` |
| `LastWins` | `lastwins.dfy` | the "later duplicate overwrites" loop the feed uses three times |
| `OrderBook` | `order_book.dfy` | order books |
| `Positions` | `positions.dfy` | positions |
| `Orders` | `orders.dfy` | open orders |
| `DataFeed` | `data_feed.dfy` | the remaining feed state |
| `Instruments` | `instruments.dfy` | option names |
| `Hedger` | `hedger.dfy` | the hedger |
| `WsClient` | `ws_client.dfy` | the client's own state |
| `Dispatch` | `dispatch.dfy` | `message_distribution` and the bot as a whole |

**The rehedge gate.** The gate in `check_deltas` fires when the perpetual
already offsets the options to within 2.5 %, which is the inverse of the
evident intent of a tolerance. The model keeps the gate as written:
- `Hedger.FiresIffNearlyHedged` states exactly when it fires;
- `Hedger.GateIsInverted` shows that an unhedged book never triggers a hedge
  and a perfectly hedged one triggers a zero-sized order.

The intended trading semantics is an open question, so this is not listed
as a finding.

**Deleting an absent price level.** `update_ob` deletes with `del` and so
raises KeyError keyed by the missing price; the model keeps that
(`OrderBook.ApplyLevel`), with the fault case `PriceKeyError(price)` for a
KeyError whose key is a float.

**As written and corrected.** Three places in the source do not do what
they evidently mean to (see Findings):
- the one-digit expiry year;
- the AttributeError in `manage_orders`;
- the KeyError on the first fill of a new instrument in `update_positions`.

Each has an as-written member and a corrected one. The bot-level members
`Dispatch.Rebalance`, `Dispatch.HandlePush` and `Dispatch.Distribute` take
a flag `corrected`:
- `false` composes the source as written: `Instruments.ParseOptionName`
  with the one-digit year, `Orders.ManageOrdersAsWritten` and
  `Positions.UpdatePositionsAsWritten`;
- `true` composes the three corrections.

Their contracts hold under both readings.

## Model

| member | source | states |
|---|---|---|
| PyText.Slice | hedger.py:85-90 | Python slicing: each bound is first counted from the end when negative and then clamped into 0..len(s). The slice is the subsequence between the clamped bounds when they are ordered and empty otherwise, never longer than s. Within bounds it is the ordinary subsequence |
| PyText.Find | hedger.py:80-82 | `str.find` with a start: the first occurrence at or after the clamped start, or -1 exactly when there is none |
| PyText.At | hedger.py:84 | `s[i]` succeeds exactly for -len(s) <= i < len(s), counting negative indexes from the end, and raises IndexError otherwise |
| PyText.Int | hedger.py:86-90 | `int(s)` succeeds exactly on a non-empty digit string and gives a natural number |
| PyText.IntOfDecimal | hedger.py:86-90 | `int(str(n)) == n` for every natural n |
| Rounding.RoundHalfEven | ws_client.py:204 | Python's `round(x)`: at most one half from x, and even whenever exactly one half away |
| Rounding.Round2 | data_feed.py:58 | `round(x, 2)` lies within 0.005 of x and is a whole number of cents |
| LastWins.InsertAllLast | data_feed.py:34-37 | after the store-by-key loop, the last record of each key is the one kept |
| LastWins.InsertAllUntouched | data_feed.py:34-37 | keys that no record mentions keep their old value |
| LastWins.InsertAllAppend | data_feed.py:34-37 | storing a + b is storing a, then storing b |
| OrderBook.BuildObFromSnapshot | data_feed.py:117-124 | a snapshot installs a book for its instrument whose price sets are the snapshot's prices, and leaves other instruments alone |
| OrderBook.SnapshotLastEntryWins | data_feed.py:119-123 | within a snapshot, the last entry for a price gives its amount |
| OrderBook.SnapshotForgetsHistory | data_feed.py:124 | the installed book does not depend on the book it replaces |
| OrderBook.ApplyLevel | data_feed.py:132-137 | one level operation fails exactly when it deletes an absent price, and then with KeyError keyed by that price |
| OrderBook.ApplyLevels | data_feed.py:131-137 | a run of level operations on one side. It can raise only KeyError, keyed by the price of some delete in the run that is absent from the side at the raise. A run without deletes always completes |
| OrderBook.ApplyLevelsReflects | data_feed.py:131-137 | a completed run of level operations leaves each price as its last new/change/delete says, and untouched prices as they were |
| OrderBook.ApplyLevelsAppend | data_feed.py:131-137 | applying a + b is applying a, then b to what a left |
| OrderBook.UpdateOb | data_feed.py:127-137 | bids then asks on the message's instrument. On a known instrument it raises exactly when the bid run or the ask run deletes an absent price. The fault is the bid run's when that raised, and otherwise the ask run's: a KeyError keyed by the price of a delete in the message. An unknown instrument raises KeyError at its first real operation. Other books and the instrument set never change. A failed bid run leaves the asks untouched |
| OrderBook.SnapshotThenChangeExample | data_feed.py:117-137 | a snapshot followed by a change gives the expected book |
| Positions.InitialPositions | data_feed.py:34-37 | the reported positions are stored by instrument name; the key set grows by exactly the reported names |
| Positions.InitialPositionsLastWins | data_feed.py:34-37 | the last report per instrument wins; unreported instruments keep their positions |
| Positions.MergedAverage | data_feed.py:58 | the new average price is a whole number of cents within 0.005 of the size-weighted mean of the two lots |
| Positions.ApplyFill | data_feed.py:44-70 | one fill, per the rules of the corrected semantics (see Findings). A same-side fill adds its size and sets the average price to a whole number of cents within 0.005 of the size-weighted mean, raising ZeroDivisionError on a zero total. An opposing fill reduces the size, or flips the direction keeping the excess. Other instruments are untouched |
| Positions.OpposingFillOfEqualSizeFlattens | data_feed.py:65-70 | an opposing fill of the position's size leaves it flat in the same direction |
| Positions.OpposingFillLargerFlips | data_feed.py:65-67 | a larger opposing fill flips the direction and keeps the excess |
| Positions.SameSideFillsTrackVwap | data_feed.py:40-61 | from flat, k same-side fills give the total size, and an average within (k-1)·0.005 of the volume-weighted average price |
| Positions.VwapStep | data_feed.py:52-60 | one more same-side fill on a position whose average is within e of the run's mean keeps it within e + 0.005 of the new mean, and the size grows by the fill's amount |
| Positions.RunStep | data_feed.py:52-60 | a run that tracks its volume-weighted average after k fills still tracks it after k + 1, one rounding wider |
| Positions.ApplyFillAsWritten | data_feed.py:49-58 | as written, the first fill of a new instrument raises KeyError; other fills behave as the corrected ones |
| Positions.FirstFillAsWrittenRaises | data_feed.py:49-58 | the first fill of a new instrument raises as written; corrected, it opens the position at the fill's amount, side and price |
| Positions.UpdatePositions | data_feed.py:40-70 | the corrected loop over the fills. When it completes, the instruments are the old ones plus those of the fills. It can raise only ZeroDivisionError |
| Positions.RaiseStopsUpdate | data_feed.py:40-70 | a raise happens at some fill i: the fills before i were applied in order, and fill i raised on the state they left |
| Positions.UpdatePositionsAsWritten | data_feed.py:40-70 | the loop as written. It can raise only ZeroDivisionError or KeyError("size") |
| Positions.AsWrittenAgreesOnKnownInstruments | data_feed.py:49-58 | when every fill is on an instrument already held, the loop as written is the corrected one |
| Positions.NewInstrumentFirstStopsAsWritten | data_feed.py:49-58 | as written, a run whose first fill opens a new instrument raises KeyError("size") before any amount is applied; the model returns the positions it was given, without the raw trade record the source stores under the new name |
| Orders.InitialOpenOrders | data_feed.py:21-31 | every reported order is stored under (instrument, order id) |
| Orders.InitialOpenOrdersLastWins | data_feed.py:21-31 | the last record per key is stored, stamped replaced = False and original type "limit" |
| Orders.ManageOrders | data_feed.py:73-99 | corrected upsert. Rejected and market orders change nothing. A known order is removed by a cancel or a complete fill and replaced otherwise. An unseen order is stored. Other keys are untouched |
| Orders.ManageOrdersKeepsIgnoredOut | data_feed.py:77-79 | rejected and market orders never enter the book of open orders |
| Orders.RepeatedCancelReinserts | data_feed.py:85-96 | a repeated cancel of a removed order stores it again |
| Orders.ManageOrdersAsWritten | data_feed.py:92-93 | as written, raises AttributeError exactly for a known order that the update does not close, and otherwise agrees with the corrected version |
| Orders.PartialFillAsWrittenRaises | data_feed.py:92-93 | a partial fill of a known order raises as written; corrected, it stores the update |
| DataFeed.ManagePortfolio | data_feed.py:103-110 | the six account fields are overwritten, with `delta_total` kept as "deribit_delta"; other account keys and the rest of the feed are untouched |
| DataFeed.ManagePortfolioLastWins | data_feed.py:103-110 | a second portfolio record fully overwrites the first |
| DataFeed.ManageOptionOi | data_feed.py:113-114 | the ticker's open interest is stored under its instrument, and nothing else changes |
| DataFeed.ManageOptionOiCommutes | data_feed.py:113-114 | tickers of different instruments commute; for the same instrument the later one wins |
| DataFeed.UpdateContracts | data_feed.py:18-19 | the contract list is replaced, and nothing else changes |
| Instruments.ParseOptionName | hedger.py:75-92 | the name parse. An empty name raises IndexError. A success is an option-type name with a valid calendar date, a non-negative strike, and Call exactly for a trailing 'C' |
| Instruments.ParseOptionNameRoundTrip | hedger.py:80-91 | reading two year digits, every listed name parses back to its contract |
| Instruments.ParseOptionNameAsWrittenYear | hedger.py:88-92 | as written, a listed name parses to its contract with the year replaced by 2000 plus the tens digit, when that date exists; otherwise it raises ValueError |
| Instruments.ExpiryYear | hedger.py:88 | the year read from the expiry text is at least 2000. With one digit it is at most 2009, with two at most 2099 |
| Instruments.ExpiryYearTensDigit | hedger.py:88 | on a text ending in two digits, the one-digit reading is 2000 plus the tens digit of the two-digit year |
| Instruments.TensYear | hedger.py:88 | the contract the one-digit reading sees keeps its type, strike, month and day. Its year lies in 2000..2009 and is earlier than any real year from 2010 on |
| Instruments.Assemble | hedger.py:92-96 | the last step succeeds exactly on a date that exists and a type of 'C' or 'P'. A date that does not exist raises ValueError |
| Instruments.OneDigitYearExample | hedger.py:88 | "BTC-25JUN21-40000-C" is read as expiring in 2002 |
| Instruments.TwoDigitYearExample | hedger.py:88 | read with two year digits, the same name expires on 25 June 2021 |
| Instruments.LeapDayAsWrittenRaises | hedger.py:88-92 | "BTC-29FEB24-50000-C" raises ValueError as written, since 29 February 2002 does not exist |
| Instruments.LeapDayTwoDigitYear | hedger.py:88-92 | read with two year digits, the same name is a call expiring on 29 February 2024 at strike 50000 |
| Instruments.ExampleName | hedger.py:80-91 | the venue's name of a 25 June 2021 call at strike 40000 is "BTC-25JUN21-40000-C" |
| Hedger.PerpDelta | hedger.py:45-55 | the perpetual's delta is 0 without a position. With one, it is +size for a buy position and -size for any other direction |
| Hedger.FillMovesPerpDelta | hedger.py:47-53 | a fill on the perpetual moves its delta by the fill's signed amount |
| Hedger.OptionKeys | hedger.py:58-67 | the priced positions are exactly those with names ending in 'P' or 'C' and non-zero size; a position under the empty name raises IndexError |
| Hedger.PerpetualIsNoOption | hedger.py:60-62 | the perpetual is never priced as an option |
| Hedger.ListedOptionIsPriced | hedger.py:74-98 | under both readings of the year. Read with two digits, a position on a listed contract is priced as that contract. As written, it is priced as the same contract expiring in 2000 plus the tens digit of its year; when that date does not exist, the contribution is a ValueError |
| Hedger.Contribution | hedger.py:74-98 | one position's term of the option delta. It succeeds exactly when its name parses under the chosen reading, and then it is the parsed contract's priced delta; otherwise it carries the parse's fault |
| Hedger.Priced | hedger.py:95-97 | the priced delta is 0 for a flat position, at a zero mid, and whenever the per-unit delta is 0 |
| Hedger.QuoteOf | hedger.py:77-96 | the pricer is given the premium in dollars, mark price times mid; the best bid as volatility spot; and the mid as spot |
| Hedger.Valuer | hedger.py:74-98 | the valuation of a position succeeds exactly when its name parses under the chosen reading, and otherwise fails with the parse's fault |
| Hedger.OptionDelta | hedger.py:70-98 | succeeds exactly when every priced position can be valued. The result is the order-independent sum of the contributions. A failure carries the fault of a failing position, or IndexError for the empty name |
| Hedger.SumResults | hedger.py:74-98 | the accumulation loop gives the set-sum of the values, or the fault of one that failed |
| Hedger.SumAlongIsSumOver | hedger.py:74-98 | summing along any visiting order of the keys gives the order-independent sum |
| Hedger.SumOverInsert | hedger.py:98 | adding an option adds its contribution to the total |
| Hedger.NoOptionsNoDelta | hedger.py:70-72 | without priced options the option delta is 0 |
| Hedger.AddOptionAddsContribution | hedger.py:74-98 | adding one option position adds exactly its contribution |
| Hedger.FiresIffNearlyHedged | hedger.py:34-40 | the gate fires exactly when hedging is activated, the option delta is non-zero, and the perpetual offsets it to within 2.5 % |
| Hedger.GateIsInverted | hedger.py:38-40 | an unhedged book never fires, and a perfectly hedged book fires with a zero-sized order |
| Hedger.Rehedge | hedger.py:107-125 | the order brings the perpetual delta exactly to minus the option delta. It is a sell at the bid exactly when the perpetual is over the target, and a buy at the ask otherwise, with amount the absolute mismatch |
| Hedger.RehedgeFillReachesTarget | hedger.py:107-125 | filling the rehedge order leaves the perpetual delta at minus the option delta |
| Hedger.CheckDeltas | hedger.py:29-40 | succeeds exactly when the options can be priced. It stores both deltas, and an order exists exactly when the gate fires, and then it is the rehedge order. A failure carries the IndexError of an empty name, or else the fault of some option name that does not parse |
| WsClient.NewClient | ws_client.py:25-60 | a new client has one empty id list per call type, a consistent registry, and is neither connected nor ready |
| WsClient.BuildApiCallIds | ws_client.py:380-382 | exactly the given call types have a list, and every list is empty |
| WsClient.SendToWs | ws_client.py:163-172 | the frame with the current counter as id always goes out. A registered type then records the id and advances the counter. An unregistered type raises KeyError with the counter unchanged |
| WsClient.SendKeepsConsistent | ws_client.py:385-387 | sending a registered type keeps every id naming the frame of its own type, with ids ascending and the counter equal to the frames sent |
| WsClient.RegisteredIdIsItsRequest | ws_client.py:40 | an id is in a type's list exactly when the frame with that id was a request of that type |
| WsClient.SellIsUnregistered | ws_client.py:41-44 | the seven registered types include "private/buy" but not "private/sell"; the corrected list includes it |
| WsClient.SellRehedgeReusesId | ws_client.py:163-172 | as written, a selling re-hedge is sent, raises KeyError, and the next request reuses its id |
| WsClient.ResetVars | ws_client.py:152-160 | every readiness flag is false: connected, authenticated, got contracts, both subscription flags. The contract list is empty and both acknowledgement counts are 0. The counter, the registry, the sent frames, the error counter, the reconnect switch and the connection age survive, so consistency is kept |
| WsClient.ResetVarsIdempotent | ws_client.py:152-160 | resetting twice is resetting once |
| WsClient.ReconnectWait | ws_client.py:107-113 | the back-off is 1 s exactly when at most 3 errors have been counted, 15 s exactly from 10 errors on, and 5 s in between |
| WsClient.ReconnectWaitMonotone | ws_client.py:107-113 | the back-off never shrinks as errors accumulate |
| WsClient.OnError | ws_client.py:98-120 | the error is counted, the connection closed and reset, the wait is chosen from the new count, and a reconnect follows exactly unless reconnecting was switched off |
| WsClient.OnOpen | ws_client.py:85-88 | connected, with the age counted from now |
| WsClient.OnPong | ws_client.py:133-137 | connected; the error count restarts once the connection is more than 60 s old |
| WsClient.OnClose | ws_client.py:123-124 | disconnected, and nothing else changes |
| WsClient.BackoffRestartsAfterStableMinute | ws_client.py:98-137 | an error after a pong on a connection older than a minute waits 1 s; on a younger one the back-off keeps climbing |
| WsClient.SplitPoint | ws_client.py:204 | the split point is a half-even rounding of n/2 and at most n |
| WsClient.SplitPointValues | ws_client.py:204 | even n splits in half; n = 1 mod 4 puts the extra contract in the second half; n = 3 mod 4 puts it in the first |
| WsClient.SubscriptionBatches | ws_client.py:203-215 | six batches: the two book halves name every contract once in order, and so do the two ticker halves, followed by the private and public channels |
| WsClient.OnlyPrivateBatchIsPrivate | ws_client.py:217-221 | whatever the contract names, only the fifth batch is sent as private/subscribe |
| WsClient.SendBatchesRegisters | ws_client.py:217-223 | sending batches keeps the registry consistent and adds one id per batch, split by public and private |
| WsClient.SendBatches | ws_client.py:217-223 | the batches are sent in order, one frame each. The earlier frames are kept. The k-th new frame subscribes to batch k's channels under the counter plus k, as private/subscribe for the private list and public/subscribe otherwise. A raise comes after its own frame went out. A completed run adds one frame per batch, advances the counter by one per batch and keeps the registered types. A raise is a KeyError for an unregistered type |
| WsClient.BuildSubscriptionsSendsSix | ws_client.py:203-224 | six requests: five public ids and one private id |
| WsClient.BuildSubscriptions | ws_client.py:203-224 | the frames it sends are the subscribe frames of the six batches of build_subscriptions, in order, with consecutive ids from the counter. A completed call sends all six frames and advances the counter by six. A raise is a KeyError for an unregistered subscribe type |
| WsClient.SignedPayloadInjective | ws_client.py:181-188 | for nonces without a line feed, the signed text determines the timestamp, the nonce and the data |
| WsClient.Authenticate | ws_client.py:175-194 | one public/auth frame with a client-signature grant signed over timestamp, nonce and empty data |
| WsClient.GetInstruments | ws_client.py:197-200 | one frame asking for the live BTC options |
| WsClient.GetPositions | ws_client.py:227-233 | two frames with consecutive ids, futures then options |
| WsClient.GetOpenOrders | ws_client.py:236-241 | one frame asking for all open BTC orders |
| Dispatch.RouteAmong | ws_client.py:308-335 | a reply goes to the first listed type whose id list holds its id, or to none, and a missing list raises KeyError |
| Dispatch.RouteFindsRequest | ws_client.py:304-335 | in a consistent registry, a reply is routed to the type of the request with its id, and to nothing otherwise |
| Dispatch.RegistriesRouteAll | ws_client.py:41-44 | both registries have a list for every routed type |
| Dispatch.CollectActiveContracts | ws_client.py:390-396 | the names are appended to the contract list. Once the list is non-empty, the feed receives the whole list and the contracts are known. The rest of the client and the hedger stay as they are |
| Dispatch.HandleResult | ws_client.py:307-332 | the handler of each routed type. It raises TypeError, changing nothing, exactly when the body has the wrong shape. An instruments reply runs collect_active_contracts. An auth reply sets authenticated exactly when the token type is "bearer". Positions and open-orders replies run initial_positions and initial_open_orders. An acknowledgement moves only its own count, by one. Only auth touches the authentication flag and only instruments touch the contract list; the flags keep agreeing with the counts |
| Dispatch.HandleResponse | ws_client.py:303-337 | no id, no result, or an unrouted id changes nothing. A lookup of a type without a list raises KeyError, changing nothing. A reply routed to type t is exactly HandleResult for t. Replies never touch the hedger, counter or registry. The flags agree with the counts |
| Dispatch.HandleAll | ws_client.py:301-337 | a run of replies, each through the reply half, stopping at the first raise. The hedger, the id counter, the registry and the sent frames are never changed |
| Dispatch.HandleAllCountsAcks | ws_client.py:318-326 | over a run of replies each count grows by its acknowledgements, and the flags keep agreeing |
| Dispatch.InstrumentRepliesConcatenate | ws_client.py:390-396 | over a run of instruments replies, the contract list is the old list followed by every reply's names in order. The feed holds that list and the contracts count as known exactly when it is non-empty. The registry, counter and hedger are unchanged |
| Dispatch.ReadyAfterAcks | ws_client.py:268-274 | after a reset, the client is ready exactly when five public and one private acknowledgement have come back |
| Dispatch.SlicePrefix | ws_client.py:352 | `channel[:n] == prefix` exactly when the channel starts with the prefix |
| Dispatch.PerpBookChannelHasOptionPrefix | ws_client.py:348-352 | the perpetual's book channel also passes the option-book prefix test, so it must be tested first |
| Dispatch.UserChannelIsNoOptionChannel | ws_client.py:352-360 | private channels never pass the option prefix tests |
| Dispatch.StoreTopOfBook | ws_client.py:348-350 | the best bid and ask come from the first levels. An empty side raises IndexError, after the bid was stored if the asks were empty. Only bid and ask change |
| Dispatch.OptionBook | ws_client.py:352-358 | a snapshot rebuilds the book, a change updates it, and anything else is ignored |
| Dispatch.Rebalance | hedger.py:29-40 | check_deltas through the client, under either reading. If some option cannot be priced, it raises with nothing changed. The fault is IndexError for an empty name, and otherwise the fault of some option name that does not parse. Otherwise the feed is unchanged. The hedger stores the option delta, the sum of the contributions, and the perpetual delta. When the gate does not fire nothing is sent. When it fires, the client becomes exactly what send_to_ws makes of it: the rehedge frame goes out, and the counter and id lists move as send_to_ws moves them. It raises exactly when the order's type is unregistered, and the fault is then KeyError of that type |
| Dispatch.HandlePush | ws_client.py:342-373 | each channel's handler, under either reading. The perpetual's book stores the best bid and ask. Other "book.BTC-" channels rebuild or update the option book. Tickers run manage_option_oi. Orders run manage_orders, keeping its raise. The portfolio runs manage_portfolio and then check_deltas. Trades run update_positions and then, unless it raised, check_deltas. A message that is not a notification changes nothing. Only the portfolio and trades channels touch the hedger or the client |
| Dispatch.Distribute | ws_client.py:301-373 | the reply half runs first, and a raise there ends the message. Otherwise the notification half does to the resulting bot exactly what HandlePush promises |
| Dispatch.TradeNotificationRunsHedger | ws_client.py:371-373 | a trades notification whose fills apply leaves the updated positions in the feed. The hedger holds the option delta of those positions and their perpetual delta |
| Dispatch.NewInstrumentTradeSkipsHedger | ws_client.py:371-373 | as written, a trades notification whose first fill opens a new instrument raises KeyError("size"), so check_deltas does not run for it; the model's bot is the one it was given, without the raw trade record the source leaves in the positions |
| Dispatch.PartialFillNotification | ws_client.py:363-364 | on the orders channel, a partial fill of a known open order raises AttributeError with nothing changed as written; corrected, the order is stored |
| Dispatch.Shutdown | ws_client.py:140-160 | reconnecting is switched off, the hedger is stopped, and the client is reset with its registry kept |
| Dispatch.ShutdownNeverReconnects | ws_client.py:98-144 | after shutdown, no number of errors leads to a reconnect |

## Left out

- Sockets, threads, sleeps and the blocking waits are not modelled. This covers `create_ws_connection`, `wait_for_*` and `initiate_streams`: the model keeps only the flags these wait on, and the race between the callback thread and the input thread is not represented.
- JSON encoding and decoding are not modelled; messages arrive already decoded, as `Reply`.
- `hedger.py:95-96`: the pricing itself is a function parameter (`Pricer`). This covers implied volatility, Black-Scholes and time to maturity from the clock. The model fixes only what is passed to it.
- `WsClient.Authenticate`: HMAC-SHA256 is a parameter, and the clock and the nonce are inputs.
- Floating point is not modelled: prices are exact reals, and `round` rounds those exactly.
- `PyText.Int` accepts only digits, not Python's signs, blanks and underscores; names from the venue carry none.
- Open orders are a flat map keyed by (instrument, order id). The empty per-instrument dicts `manage_orders` leaves behind are not represented.
- `Positions.ApplyFillAsWritten`: the raw trade record stored before the KeyError is not represented.
- `Positions.NewInstrumentFirstStopsAsWritten`: the model drops the raw trade record that data_feed.py:50 stores under the new name, because a position holds only size, direction and average price. In the source that record stays. Every later fill on the instrument then raises KeyError("size") at data_feed.py:55 or :65. If the name ends in "C" or "P", every later check_deltas raises KeyError("size") at hedger.py:63. If the name is "BTC-PERPETUAL", the raise is at hedger.py:48. The model keeps pricing and hedging the positions it had.
- `Dispatch.NewInstrumentTradeSkipsHedger`: the result is the unchanged bot, without the raw trade record, for the same reason. The later check_deltas raises KeyError("size") in the source; it goes on in the model (see the line above).
- `Hedger.OptionDelta`: on failure it reports the fault of some failing option, not necessarily the first in dict order.
- `Instruments.ParseOptionName`: an option type other than 'C' or 'P' is reported as a ValueError. In the source the pricing library is what refuses it.
- `Dispatch.HandleResult`, `Dispatch.HandlePush`: a payload of the wrong shape is modelled as a TypeError, not the exact Python exception class.
- Exceptions escaping a websocket-client callback, which the library turns into an `on_error` call, are not modelled.
- `wait_for_input`, `convert_ts`, the getters and `bot_start.py` are not modelled. The `get_account_data` typo (`account_data`) is outside the model.
- The `trades` dict of the feed is never written by the source and is not modelled.

## Findings

| source | as written | input that shows it | evidently intended | confidence | as-written member | corrected member |
|---|---|---|---|---|---|---|
| data_feed.py:49-58 | a fill on an instrument without a position stores the raw trade, then reads its `size` and raises KeyError; the raw record stays, so later fills on it raise too, and so does every later check_deltas when the name is an option's or the perpetual's (the as-written members model the first raise and not the raw record; see "Left out") | any first fill of a new instrument | open a position with the fill's amount, side and price | high, not executed | Positions.ApplyFillAsWritten, Positions.FirstFillAsWrittenRaises, Positions.NewInstrumentFirstStopsAsWritten, Dispatch.NewInstrumentTradeSkipsHedger | Positions.ApplyFill, Positions.UpdatePositions, Positions.SameSideFillsTrackVwap, Dispatch.TradeNotificationRunsHedger |
| data_feed.py:92-93 | an update to a known order that does not close it writes to `self.order` and raises AttributeError | a partial fill of a known open limit order | replace the stored order with the update | high, not executed | Orders.ManageOrdersAsWritten, Orders.PartialFillAsWrittenRaises, Dispatch.PartialFillNotification | Orders.ManageOrders, Orders.ManageOrdersKeepsIgnoredOut |
| hedger.py:88 | the expiry year is `int(exp[-2]) + 2000`, which is the tens digit alone | "BTC-25JUN21-40000-C" read as 25 June 2002; "BTC-29FEB24-50000-C" raises ValueError | `int(exp[-2:]) + 2000` | high, not executed | Instruments.ParseOptionNameAsWrittenYear, Instruments.OneDigitYearExample, Instruments.LeapDayAsWrittenRaises, Hedger.ListedOptionIsPriced | Instruments.ParseOptionNameRoundTrip, Instruments.TwoDigitYearExample, Instruments.LeapDayTwoDigitYear |
| ws_client.py:41-44, ws_client.py:385-387, hedger.py:119 | "private/sell" has no id list, so a selling re-hedge is sent, raises KeyError, and its id is reused by the next request | a re-hedge with the perpetual above its target | register "private/sell" with the other call types | high, not executed | WsClient.SellRehedgeReusesId | WsClient.SellIsUnregistered, WsClient.SendKeepsConsistent |
