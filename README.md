# Crypto tracker core, modelled in Dafny

This project is a Dafny model of the state-keeping core of a React Native crypto
tracker. The model proves properties of that core:

- **Realtime price table.** A map from a CoinGecko coin id to its latest price
  record. It is updated only by a last-writer-wins merge of each batch.
- **Binance ticker feed.** A fixed table sends each coin id to a Binance USDT
  trading pair, and a lower-cased inverse table sends it back. Each
  `!miniTicker@arr` frame is translated into a batch for that price table. The
  module keeps two references: the current socket manager and the current
  price handler.
- **WebSocket manager.** Connects, reports status, sends a heartbeat ping, and
  reconnects with backoff delays of `3000 * 2^n` ms. It stops after 10 attempts
  and tears down on `disconnect`. Its steps are modelled twice, as written and
  corrected, through a `Version` parameter: as written, `connect` leaves a
  socket still connecting behind and `attemptReconnect` loses track of a
  pending timeout, so `disconnect` is not final (see Findings).
- **Price alerts store.** A list of at most 20 alerts, with add, remove,
  toggle, trigger and clear.
- **Alert checker.** Each pass fires the active alerts whose coin's price
  meets their condition. A set of checked ids lives as long as the checker, so
  an alert fires at most once.
- **Portfolio store.** Holdings with add, remove, partial update and clear.
- **Portfolio valuation** (the `useMemo` body of the portfolio summary). It:
  - builds a price map;
  - values each holding and sums worth and cost;
  - writes allocations in place;
  - sorts by value, highest first;
  - computes summary statistics and donut segments.
- **Settings store.** Four independent preferences.

Two kinds of code are modelled differently:

- **Pure logic** becomes datatypes and functions. Examples are the step
  functions of the socket manager, the price merge, filters, the valuation
  arithmetic and the selectors.
- **Objects with mutable fields** become classes with `modifies` clauses.
  These are the zustand stores, the socket manager, the feed's module state
  and the checker's `checkedRef`. Each method is proved against a function of
  the old state: `Model() == DisconnectStep(old(Model())).next`,
  `alerts == Removed(old(alerts), id)`.

Loops in the source are `while`/`for` loops with invariants:

- the merge in `setRealtimePrices`;
- the ticker loop;
- the alert pass;
- the price-map, valuation and allocation loops;
- the sort, an in-place insertion sort on an `array`.

Things outside the core become parameters:

- **The clock.** `Date.now()` readings are `nat` parameters.
- **`parseFloat` and `JSON.parse`.** They are function parameters.
- **Socket construction.** Whether the socket constructor throws is a `bool`.
- **Calls into the environment.** Status reports, opening and closing sockets,
  timers and frames sent are logged as an `Effect` sequence.

Files:

- `wrappers.dfy`: `Option`.
- `config.dfy`: the constants used.
- `strings.dfy`: ASCII case mapping and decimal rendering, with injectivity.
- `seqs.dfy`: `filter` and key uniqueness.
- `coin_store.dfy`, `binance_ws.dfy`, `websocket_manager.dfy`: prices, the feed and the socket manager.
- `alert_store.dfy`, `alert_checker.dfy`: alerts and the checker.
- `portfolio_store.dfy`, `portfolio_summary.dfy`: holdings and valuation.
- `settings_store.dfy`: settings.

## Model

| member | source | states |
|---|---|---|
| Strings.ToLower | src/entities/coin/api/binance-ws.ts:52 | The result has the same length, and every character is the lower-case form of the character at that position. |
| Strings.ToUpper | src/widgets/portfolio-summary/PortfolioSummary.tsx:76 | The result has the same length, and every character is the upper-case form of the character at that position. |
| Strings.ToLowerIdempotent | src/entities/coin/api/binance-ws.ts:34 | Lower-casing an already lower-cased string changes nothing. |
| Strings.Decimal | src/entities/alert/model/store.ts:28 | A clock reading renders as a non-empty string of decimal digits, with at least two digits from 10 upwards. |
| Strings.DecimalInjective | src/entities/alert/model/store.ts:28 | Different readings render as different strings. |
| CoinModel.Merge | src/entities/coin/model/store.ts:16-24 | The merged table has the keys of both. Every batch key maps to exactly the batch's record. Every other key keeps its old record. |
| CoinModel.MergeIdempotent | src/entities/coin/model/store.ts:16-24 | Merging the same batch twice leaves the table that merging it once does. |
| CoinModel.LastWriterWins | src/entities/coin/model/store.ts:16-24 | Across two merges, the later batch's record wins for a key present in it. |
| CoinModel.Lookup | src/entities/coin/model/store.ts:28 | `realtimePrices[coinId]` is present exactly when the id is a key, and then it is that key's record. |
| CoinModel.CoinStore.constructor | src/entities/coin/model/store.ts:13-14 | The store starts with an empty table and status `disconnected`. |
| CoinModel.CoinStore.SetRealtimePrices | src/entities/coin/model/store.ts:16-24 | The copy-then-write loop leaves exactly `Merge(old table, batch)`. The status is unchanged. |
| CoinModel.CoinStore.SetWsStatus | src/entities/coin/model/store.ts:26 | The status is replaced, so `selectWsStatus` returns it, and the table is untouched. |
| CoinModel.CoinStore.GetRealtimePrice | src/entities/coin/model/store.ts:28 | Present exactly for a key of the current table, with that key's record. |
| CoinModel.SelectRealtimePrice | src/entities/coin/model/store.ts:31-32 | `state.realtimePrices[coinId]` is present exactly when the id is a key of the state's table, and then it is that key's record. |
| CoinModel.SelectWsStatus | src/entities/coin/model/store.ts:34 | The selector returns the store's current status; after `SetWsStatus(st)` it returns `st` (SetWsStatus's ensures). |
| CoinModel.SelectorMatchesGetter | src/entities/coin/model/store.ts:31-32 | `selectRealtimePrice(coinId)` agrees with `getRealtimePrice` on every id. |
| BinanceFeed.ReverseIsInverse | src/entities/coin/api/binance-ws.ts:33-35 | The written-out inverse table is exactly the forward table inverted with each pair lower-cased. Each lower-cased pair maps back to its coin, every key comes from some coin, and no two coins share a pair in any case. |
| BinanceFeed.ForwardPaired | src/entities/coin/api/binance-ws.ts:5-26 | Each of the 20 forward entries has its lower-cased pair in the inverse table, mapped back to it, under a non-empty id. |
| BinanceFeed.BackwardPaired | src/entities/coin/api/binance-ws.ts:33-35 | Each inverse entry names a listed coin whose lower-cased pair is that key. |
| BinanceFeed.GetBinanceSymbol | src/entities/coin/api/binance-ws.ts:80-82 | Present exactly for a listed coin id, and then it is the coin's pair. |
| BinanceFeed.CoinIdOf | src/entities/coin/api/binance-ws.ts:52 | The symbol is lower-cased and then looked up. The result is present exactly when the lower-cased symbol is an inverse key. |
| BinanceFeed.CoinIdOfIff | src/entities/coin/api/binance-ws.ts:52-53 | A symbol resolves to coin `c` exactly when `c` is listed and the symbol equals `c`'s pair up to case. The resolved id is never empty. |
| BinanceFeed.SymbolRoundTrip | src/entities/coin/api/binance-ws.ts:80-82 | Looking up a listed coin's pair and resolving it gives back the coin. |
| BinanceFeed.CoinIdOfIgnoresCase | src/entities/coin/api/binance-ws.ts:52 | A symbol and its lower-cased form resolve the same way. |
| BinanceFeed.Record | src/entities/coin/api/binance-ws.ts:54-58 | The record's price is the parsed `c`, its change is `P`, and its volume is the quote volume `q`. |
| BinanceFeed.BatchKeys | src/entities/coin/api/binance-ws.ts:51-60 | A coin is in the batch exactly when some ticker of the frame resolves to it. |
| BinanceFeed.BatchLastWins | src/entities/coin/api/binance-ws.ts:51-60 | A coin's record in the batch comes from the last ticker resolving to it. No later ticker resolves to it. |
| BinanceFeed.BatchCanonical | src/entities/coin/api/binance-ws.ts:51-60 | Every coin in a batch is a listed coin id. |
| BinanceFeed.BatchAppend | src/entities/coin/api/binance-ws.ts:51-60 | A ticker whose symbol is a listed pair in any case puts its record under that coin. A ticker with an unlisted symbol leaves the batch unchanged. |
| BinanceFeed.TranslateTickers | src/entities/coin/api/binance-ws.ts:49-60 | The ticker loop returns exactly `Batch` of the frame's tickers. |
| BinanceFeed.Feed.constructor | src/entities/coin/api/binance-ws.ts:30-31 | At module load there is no manager and no handler. |
| BinanceFeed.Feed.ConnectBinanceWS | src/entities/coin/api/binance-ws.ts:37-72 | Any previous manager is disconnected and left torn down. The handler is installed. A fresh reconnecting manager is in the state the corrected `connect` leaves from the initial state, with exactly that call's effects. |
| BinanceFeed.Feed.DisconnectBinanceWS | src/entities/coin/api/binance-ws.ts:74-78 | The old manager, if any, is torn down with `disconnect`'s effects. Both references are cleared. |
| BinanceFeed.Feed.OnFrame | src/entities/coin/api/binance-ws.ts:46-65 | A non-array frame is ignored. An array frame's batch is handed on exactly when it is non-empty. The delivery goes to the installed handler, if one is installed. |
| SocketManager.BackoffRange | src/shared/api/websocket-manager.ts:88-93 | Every allowed attempt waits between 3 s and 1536 s. Each further attempt waits twice as long as the one before. |
| SocketManager.StopPingStep | src/shared/api/websocket-manager.ts:107-112 | The heartbeat is off afterwards. It is cleared only if it was running. Nothing else changes. |
| SocketManager.ClearReconnectTimerStep | src/shared/api/websocket-manager.ts:114-119 | The reconnect handle is null and no timeout is pending. A cancel happens only if a handle was set. |
| SocketManager.AttemptReconnectAsWritten | src/shared/api/websocket-manager.ts:87-99 | At the cap, nothing happens. Below it, one reconnect is scheduled with delay `3000 * 2^attempts` and the attempt is counted. A still-pending timeout is orphaned. |
| SocketManager.AttemptReconnectStep | src/shared/api/websocket-manager.ts:87-99 | The corrected `attemptReconnect`: the same, except that any pending timeout is cancelled first, so nothing is orphaned. |
| SocketManager.Attempt | src/shared/api/websocket-manager.ts:87-99 | In either version, an attempt below the cap is counted, and at the cap the count stays. |
| SocketManager.OpenNewSocketStep | src/shared/api/websocket-manager.ts:37-38 | The new socket is current and connecting. As written, a socket still connecting is left behind as a stray. The corrected version closes it first. |
| SocketManager.ConnectFailedStep | src/shared/api/websocket-manager.ts:67-70 | `error` is reported and the socket fields are kept. |
| SocketManager.ConnectStep | src/shared/api/websocket-manager.ts:31-71 | With an open socket, it does nothing. Otherwise `connecting` is reported first. |
| SocketManager.ConnectOutcome | src/shared/api/websocket-manager.ts:31-71 | When the socket is not open, the manual-close flag is cleared. Without a throw, a connecting socket is current, and a socket still connecting is left as a stray (as written) or closed (corrected). With a throw, `error` follows `connecting` and the socket is kept. |
| SocketManager.OnOpenHandler | src/shared/api/websocket-manager.ts:40-44 | The attempt counter resets, `connected` is reported and the heartbeat starts. Nothing else changes. |
| SocketManager.OnOpenStep | src/shared/api/websocket-manager.ts:40-44 | Only a connecting current socket opens. It becomes open, and the `onopen` body runs. |
| SocketManager.StrayOpenStep | src/shared/api/websocket-manager.ts:37-44 | A stray socket that opens runs the same `onopen` body on the manager, and is then no longer a stray. |
| SocketManager.OnErrorStep | src/shared/api/websocket-manager.ts:55-57 | `error` is reported and nothing changes. |
| SocketManager.OnCloseHandler | src/shared/api/websocket-manager.ts:59-66 | The heartbeat stops and `disconnected` is reported. The manual-close flag and the socket are kept. |
| SocketManager.OnCloseStep | src/shared/api/websocket-manager.ts:59-66 | The current socket is no longer open or connecting, the heartbeat stops and `disconnected` is reported. |
| SocketManager.DisconnectStep | src/shared/api/websocket-manager.ts:73-79 | Afterwards, manual close is set, there are no timers, nothing is pending and there is no socket. The counters are unchanged. The socket is closed exactly when one existed. |
| SocketManager.SendStep | src/shared/api/websocket-manager.ts:81-85 | The frame is sent exactly when the socket is open, and the state is unchanged. |
| SocketManager.PingTickStep | src/shared/api/websocket-manager.ts:101-105 | A tick sends the ping frame exactly when the heartbeat runs and the socket is open. |
| SocketManager.ReconnectFiresStep | src/shared/api/websocket-manager.ts:96-98 | A pending timeout runs `connect` with the pending flag cleared and the handle kept. A timeout no longer pending does nothing. |
| SocketManager.OrphanFiresStep | src/shared/api/websocket-manager.ts:96-98 | A timeout whose handle was overwritten runs `connect` once and is no longer counted. Without one, nothing happens. |
| SocketManager.ApplyKeepsInv | src/shared/api/websocket-manager.ts:88-94 | In both versions, every event keeps the invariant:<br>- attempts never exceed 10;<br>- an open socket exists and is not connecting;<br>- a pending timeout has a handle. |
| SocketManager.RunKeepsInv | src/shared/api/websocket-manager.ts:88-94 | In both versions, every run of events keeps the invariant. |
| SocketManager.ApplyKeepsTidy | src/shared/api/websocket-manager.ts:31-99 | With the corrected `connect` and `attemptReconnect`, no event orphans a timeout or leaves a stray socket. |
| SocketManager.RunKeepsTidy | src/shared/api/websocket-manager.ts:31-99 | The same for every run of events (corrected `connect` and `attemptReconnect`). |
| SocketManager.OnCloseReconnects | src/shared/api/websocket-manager.ts:59-66 | In both versions, a close schedules a reconnect exactly when it was not asked for, reconnecting is on and the cap is not reached. The delay is `3000 * 2^attempts` and the attempt is counted. |
| SocketManager.AttemptDelays | src/shared/api/websocket-manager.ts:87-99 | In both versions, an attempt schedules only the backoff delay of the attempt it counts. |
| SocketManager.ConnectDelays | src/shared/api/websocket-manager.ts:67-70 | In both versions, `connect` schedules only the backoff delays of the attempts it counts. |
| SocketManager.DisconnectDelays | src/shared/api/websocket-manager.ts:73-79 | `disconnect` schedules nothing. |
| SocketManager.OnCloseDelays | src/shared/api/websocket-manager.ts:59-66 | In both versions, `onclose` schedules only the backoff delays of the attempts it counts. |
| SocketManager.ApplyDelays | src/shared/api/websocket-manager.ts:87-99 | In both versions, any event other than a socket opening schedules exactly the backoff delays of the attempts it counts. |
| SocketManager.RunDelays | src/shared/api/websocket-manager.ts:87-99 | In both versions, a run without a socket opening schedules attempts `a, a+1, …` with delays `3000 * 2^a, …`. There are at most `10 - a` of them. |
| SocketManager.DisconnectIdempotent | src/shared/api/websocket-manager.ts:73-79 | A second `disconnect` changes nothing and does nothing. |
| SocketManager.DisconnectTearsDown | src/shared/api/websocket-manager.ts:73-79 | `disconnect` leaves a manager that has lost track of nothing torn down. |
| SocketManager.TeardownIsFinal | src/shared/api/websocket-manager.ts:73-79 | With the corrected `connect` and `attemptReconnect`: after teardown, any late callbacks and timers, short of a new `connect`, keep the manager torn down. This includes a socket opening. The only effects are `disconnected`/`error` reports. |
| SocketManager.DisconnectIsFinal | src/shared/api/websocket-manager.ts:73-79 | With the corrected `connect` and `attemptReconnect`: from a new manager, after any events and a `disconnect`, nothing short of a new `connect` opens a socket, schedules a reconnect, starts a heartbeat or sends anything. |
| SocketManager.OrphanedReconnectResurrects | src/shared/api/websocket-manager.ts:96-98 | As written: connect, the socket closes, connect, it closes again, disconnect. A timeout is still orphaned, and when it runs it clears manual close and opens a socket. |
| SocketManager.StrayOpenAfterDisconnect | src/shared/api/websocket-manager.ts:37-44 | As written: connect, connect again while the first socket is still connecting, disconnect. The first socket is a stray; when it opens, `connected` is reported and a heartbeat starts on the torn-down manager. |
| SocketManager.WebSocketManager.constructor | src/shared/api/websocket-manager.ts:24-29 | A new manager is in the initial state with no effects. |
| SocketManager.WebSocketManager.Connect | src/shared/api/websocket-manager.ts:31-71 | The new state and the effects are those of the corrected `ConnectStep`. |
| SocketManager.WebSocketManager.OpenNewSocket | src/shared/api/websocket-manager.ts:37-38 | The new state and the effects are those of the corrected `OpenNewSocketStep`. |
| SocketManager.WebSocketManager.ConnectFailed | src/shared/api/websocket-manager.ts:67-70 | The new state and the effects are those of the corrected `ConnectFailedStep`. |
| SocketManager.WebSocketManager.Disconnect | src/shared/api/websocket-manager.ts:73-79 | The new state and the effects are those of `DisconnectStep`. |
| SocketManager.WebSocketManager.Send | src/shared/api/websocket-manager.ts:81-85 | The state is unchanged. The effects are those of `SendStep`. |
| SocketManager.WebSocketManager.OnOpen | src/shared/api/websocket-manager.ts:40-44 | The new state and the effects are those of `OnOpenStep`. |
| SocketManager.WebSocketManager.OnMessage | src/shared/api/websocket-manager.ts:46-53 | A frame that decodes is handed on as decoded. One that does not is dropped. |
| SocketManager.WebSocketManager.OnError | src/shared/api/websocket-manager.ts:55-57 | `error` is reported and the state is unchanged. |
| SocketManager.WebSocketManager.OnClose | src/shared/api/websocket-manager.ts:59-66 | The new state and the effects are those of the corrected `OnCloseStep`. |
| SocketManager.WebSocketManager.HandleClose | src/shared/api/websocket-manager.ts:60-65 | The new state and the effects are those of the corrected `OnCloseHandler`. |
| SocketManager.WebSocketManager.PingTimerFires | src/shared/api/websocket-manager.ts:102-104 | The effects are those of `PingTickStep` and the state is unchanged. |
| SocketManager.WebSocketManager.ReconnectTimerFires | src/shared/api/websocket-manager.ts:96-98 | A pending timeout runs the corrected `connect`. One no longer pending does nothing. |
| SocketManager.WebSocketManager.AttemptReconnect | src/shared/api/websocket-manager.ts:87-99 | The new state and the effects are those of the corrected `AttemptReconnectStep`. |
| SocketManager.WebSocketManager.StartPing | src/shared/api/websocket-manager.ts:101-105 | The heartbeat runs, with period `PING_INTERVAL`. |
| SocketManager.WebSocketManager.StopPing | src/shared/api/websocket-manager.ts:107-112 | The new state and the effects are those of `StopPingStep`. |
| SocketManager.WebSocketManager.ClearReconnectTimer | src/shared/api/websocket-manager.ts:114-119 | The new state and the effects are those of `ClearReconnectTimerStep`. |
| AlertModel.AlertId | src/entities/alert/model/store.ts:28 | The id is `alert-` followed by the clock reading. |
| AlertModel.AlertIdInjective | src/entities/alert/model/store.ts:28 | Different readings give different ids. |
| AlertModel.FreshAlertId | src/entities/alert/model/store.ts:28 | With a strictly increasing clock, the next id is not yet taken. |
| AlertModel.NewAlert | src/entities/alert/model/store.ts:26-31 | The new alert is the input's fields, with an `alert-` id and not triggered, created at the given reading. |
| AlertModel.UpdateWhere | src/entities/alert/model/store.ts:47-49 | The length is kept. Alerts with the id are mapped and every other alert is unchanged. |
| AlertModel.Removed | src/entities/alert/model/store.ts:41 | It keeps exactly the alerts without that id. An absent id changes nothing. |
| AlertModel.Untriggered | src/entities/alert/model/store.ts:65 | It keeps exactly the untriggered alerts. With none triggered, nothing changes. |
| AlertModel.SelectActiveAlerts | src/entities/alert/model/store.ts:76-77 | Exactly the active, untriggered alerts. |
| AlertModel.SelectTriggeredAlerts | src/entities/alert/model/store.ts:79-80 | Exactly the triggered alerts. |
| AlertModel.SelectAlertsByCoin | src/entities/alert/model/store.ts:82-83 | Exactly the alerts of that coin. None for an unknown coin. |
| AlertModel.ActiveAndTriggeredDisjoint | src/entities/alert/model/store.ts:76-80 | No alert is both active and triggered. |
| AlertModel.ToggleTwice | src/entities/alert/model/store.ts:45-51 | Toggling the same id twice restores the list. |
| AlertModel.ActionsKeepTriggeredInactive | src/entities/alert/model/store.ts:21-67 | Add, trigger, remove and clear keep "triggered implies inactive". |
| AlertModel.ToggleBreaksTriggeredInactive | src/entities/alert/model/store.ts:45-51 | Toggling a triggered alert can make it active again. |
| AlertModel.ToggleUntriggeredKeepsTriggeredInactive | src/entities/alert/model/store.ts:45-51 | Toggling an untriggered alert keeps "triggered implies inactive". |
| AlertModel.AlertStore.constructor | src/entities/alert/model/store.ts:19 | The store starts with no alerts. |
| AlertModel.AlertStore.AddAlert | src/entities/alert/model/store.ts:21-37 | It succeeds exactly when fewer than 20 alerts are stored, and then appends the new alert. Otherwise nothing changes. Capacity and unique ids are kept. |
| AlertModel.AlertStore.RemoveAlert | src/entities/alert/model/store.ts:39-43 | The list becomes `Removed(old, id)`. Ids stay unique. |
| AlertModel.AlertStore.ToggleAlert | src/entities/alert/model/store.ts:45-51 | Alerts with the id have `isActive` flipped. All others are untouched. |
| AlertModel.AlertStore.TriggerAlert | src/entities/alert/model/store.ts:53-61 | Alerts with the id become triggered and inactive at the reading. All others are untouched. |
| AlertModel.AlertStore.ClearTriggered | src/entities/alert/model/store.ts:63-67 | The list becomes its untriggered alerts. |
| AlertChecking.ShouldTrigger | src/features/alerts/check-alerts/useAlertChecker.ts:39-41 | `above` fires exactly at or over the target. `below` fires exactly at or under it. |
| AlertChecking.FiringPrice | src/features/alerts/check-alerts/useAlertChecker.ts:36-41 | An alert fires exactly when its coin has a non-zero price that meets the condition. It fires at that price. |
| AlertChecking.PassFiresOnlyEligible | src/features/alerts/check-alerts/useAlertChecker.ts:33-48 | A pass adds exactly the notified ids to the checked set. It notifies each id once. It never notifies an id already checked. It notifies only active alerts that fire, each at its firing price. |
| AlertChecking.PassComplete | src/features/alerts/check-alerts/useAlertChecker.ts:33-48 | After a pass, every active alert that fires is in the checked set. |
| AlertChecking.FireTwice | src/entities/alert/model/store.ts:55-58 | Triggering an alert again changes nothing further. |
| AlertChecking.TriggerEachEffect | src/features/alerts/check-alerts/useAlertChecker.ts:45 | After a pass's `triggerAlert` calls, every notified alert is triggered at the reading. Every other alert is unchanged. |
| AlertChecking.AboveAlertFiresOnce | src/features/alerts/check-alerts/useAlertChecker.ts:26-49 | An `above 60000` alert does not fire at 59000 and fires once at 61000. After that it is inactive. Even re-enabled, it stays checked and does not fire at 59500 or 62000. |
| AlertChecking.AlertChecker.constructor | src/features/alerts/check-alerts/useAlertChecker.ts:24 | The checked set starts empty. |
| AlertChecking.AlertChecker.VisitAlert | src/features/alerts/check-alerts/useAlertChecker.ts:34-47 | One loop iteration: skip a checked id, skip a missing or zero price, and fire when the condition holds. |
| AlertChecking.AlertChecker.CheckAlerts | src/features/alerts/check-alerts/useAlertChecker.ts:26-49 | The checked set, the notifications and the alert list are exactly those of `Pass` over the active alerts, followed by `TriggerEach`. Uniqueness is kept. |
| PortfolioModel.HoldingIdInjective | src/entities/portfolio/model/store.ts:23 | `${coinId}-${now}` determines both the coin and the reading, even for coin ids that contain `-`. |
| PortfolioModel.FreshHoldingId | src/entities/portfolio/model/store.ts:23 | With a strictly increasing clock, the next id is not yet taken. |
| PortfolioModel.NewHolding | src/entities/portfolio/model/store.ts:21-25 | The new holding is the input, with that id and `addedAt`. |
| PortfolioModel.AddTwiceDistinct | src/entities/portfolio/model/store.ts:23 | Adding the same coin at two readings gives two ids. |
| PortfolioModel.Patch | src/entities/portfolio/model/store.ts:40 | A field present in the update replaces the holding's field. An absent field keeps it. All other fields are kept. |
| PortfolioModel.Updated | src/entities/portfolio/model/store.ts:37-43 | Holdings with the id are patched and all others are unchanged. Ids are kept. |
| PortfolioModel.UpdateLaws | src/entities/portfolio/model/store.ts:37-43 | An empty update is the identity. An update applied twice has the effect of applying it once. |
| PortfolioModel.Removed | src/entities/portfolio/model/store.ts:33 | It keeps exactly the holdings without that id. An absent id changes nothing. |
| PortfolioModel.SelectHoldingByCoin | src/entities/portfolio/model/store.ts:55-56 | Exactly the holdings of the coin. None for an unknown coin. |
| PortfolioModel.PortfolioStore.constructor | src/entities/portfolio/model/store.ts:18 | The store starts with no holdings. |
| PortfolioModel.PortfolioStore.AddHolding | src/entities/portfolio/model/store.ts:20-29 | The new holding is appended. Ids stay unique. |
| PortfolioModel.PortfolioStore.RemoveHolding | src/entities/portfolio/model/store.ts:31-35 | The list becomes `Removed(old, id)`. |
| PortfolioModel.PortfolioStore.UpdateHolding | src/entities/portfolio/model/store.ts:37-43 | The list becomes `Updated(old, id, updates)`. |
| PortfolioModel.PortfolioStore.ClearPortfolio | src/entities/portfolio/model/store.ts:45 | The list becomes empty. |
| PortfolioValuation.MarketPricesLast | src/widgets/portfolio-summary/PortfolioSummary.tsx:30-32 | An id's snapshot price is that of its last snapshot entry. Only ids with an entry have a price. |
| PortfolioValuation.PricePrecedence | src/widgets/portfolio-summary/PortfolioSummary.tsx:41 | The current price is the realtime price if there is one, else the last snapshot price, else the buy price. |
| PortfolioValuation.Valued | src/widgets/portfolio-summary/PortfolioSummary.tsx:40-58 | The record holds the holding and its current price. Its value is amount times price and its profit is value minus cost. The allocation is 0. |
| PortfolioValuation.ValuedPercent | src/widgets/portfolio-summary/PortfolioSummary.tsx:45 | With positive cost, the profit percentage times cost is profit times 100. Otherwise the percentage is 0. |
| PortfolioValuation.TotalsConcat | src/widgets/portfolio-summary/PortfolioSummary.tsx:47-48 | Totals over a concatenation are the sums of the parts' totals. |
| PortfolioValuation.Allocated | src/widgets/portfolio-summary/PortfolioSummary.tsx:62 | Only the allocation changes. It is 0 unless the total is positive. |
| PortfolioValuation.AllocatedShare | src/widgets/portfolio-summary/PortfolioSummary.tsx:62 | Of a positive total, allocation times total is value times 100. |
| PortfolioValuation.Valuation | src/widgets/portfolio-summary/PortfolioSummary.tsx:40-63 | One record per holding, in holding order, each valued and allocated against the total. |
| PortfolioValuation.AllocationSumPermutation | src/widgets/portfolio-summary/PortfolioSummary.tsx:66 | Reordering the records does not change the allocation sum. |
| PortfolioValuation.SharesAddUp | src/widgets/portfolio-summary/PortfolioSummary.tsx:62 | The allocations of a positive total, times that total, sum to 100 times the values' sum. |
| PortfolioValuation.ValuationValueSum | src/widgets/portfolio-summary/PortfolioSummary.tsx:47 | The records' values add up to the running total. |
| PortfolioValuation.ValuationShare | src/widgets/portfolio-summary/PortfolioSummary.tsx:62 | Each record's allocation times the total is its value times 100. |
| PortfolioValuation.SharesOfTotal | src/widgets/portfolio-summary/PortfolioSummary.tsx:61-63 | Shares of a positive total that the values add up to sum to 100. |
| PortfolioValuation.AllocationsAddUp | src/widgets/portfolio-summary/PortfolioSummary.tsx:61-63 | When the portfolio is worth something, the allocations add up to exactly 100. |
| PortfolioValuation.Stats | src/widgets/portfolio-summary/PortfolioSummary.tsx:68-73 | The totals are kept and the profit is value minus cost. The percentage is 0 when cost is not positive. |
| PortfolioValuation.StatsPercent | src/widgets/portfolio-summary/PortfolioSummary.tsx:72 | With positive cost, the percentage times cost is profit times 100. |
| PortfolioValuation.Segments | src/widgets/portfolio-summary/PortfolioSummary.tsx:75-79 | There is one segment per sorted record. Each has the record's upper-cased symbol, its value, and colour `i mod 8`. |
| PortfolioValuation.InsertDesc | src/widgets/portfolio-summary/PortfolioSummary.tsx:66 | One insertion step leaves the first `i+1` records ordered by value, highest first. It leaves the rest untouched and is a permutation. |
| PortfolioValuation.SortByValueDesc | src/widgets/portfolio-summary/PortfolioSummary.tsx:66 | The array ends up ordered by value, highest first, as a permutation of its contents. |
| PortfolioValuation.Allocate | src/widgets/portfolio-summary/PortfolioSummary.tsx:61-63 | Each record in place becomes `Allocated(record, total)`. |
| PortfolioValuation.SetMarketPrices | src/widgets/portfolio-summary/PortfolioSummary.tsx:30-32 | The loop yields `MarketPrices(snapshot)`. |
| PortfolioValuation.SetRealtimePrices | src/widgets/portfolio-summary/PortfolioSummary.tsx:33-35 | The realtime prices are set over the base map. |
| PortfolioValuation.BuildPriceMap | src/widgets/portfolio-summary/PortfolioSummary.tsx:27-35 | The two loops yield exactly `PriceMap(snapshot, realtime)`. |
| PortfolioValuation.ValueHoldings | src/widgets/portfolio-summary/PortfolioSummary.tsx:37-58 | Each holding is valued, and the running totals are the total value and the total cost. |
| PortfolioValuation.Summarize | src/widgets/portfolio-summary/PortfolioSummary.tsx:26-82 | The records are sorted by value and are a permutation of `Valuation`. When the total value is positive, the allocations add up to 100. The statistics cover all holdings, with one donut segment per sorted record. |
| Settings.CurrencyCodeInjective | src/shared/types/index.ts:1 | The five currencies have five distinct codes. |
| Settings.Defaults | src/features/settings/model/store.ts:21-24 | The defaults are `usd`, `dark`, notifications on and haptics on. |
| Settings.WithCurrency | src/features/settings/model/store.ts:26 | The currency is set and every other field is kept. |
| Settings.WithTheme | src/features/settings/model/store.ts:27 | The theme is set and every other field is kept. |
| Settings.WithNotifications | src/features/settings/model/store.ts:28 | The notification flag is set and every other field is kept. |
| Settings.WithHaptic | src/features/settings/model/store.ts:29 | The haptics flag is set and every other field is kept. |
| Settings.LastWriteWins | src/features/settings/model/store.ts:26-29 | Writing a field twice keeps only the second value. |
| Settings.SettersCommute | src/features/settings/model/store.ts:26-29 | Setters of different fields commute. |
| Settings.EveryPrefsReachable | src/features/settings/model/store.ts:21-29 | Every combination of values, including all five currencies, is reachable from the defaults by the setters. |
| Settings.SettingsStore.constructor | src/features/settings/model/store.ts:21-24 | The store starts at the defaults. |
| Settings.SettingsStore.SetCurrency | src/features/settings/model/store.ts:26 | The state becomes `WithCurrency(old, c)`. |
| Settings.SettingsStore.SetTheme | src/features/settings/model/store.ts:27 | The state becomes `WithTheme(old, t)`. |
| Settings.SettingsStore.SetNotificationsEnabled | src/features/settings/model/store.ts:28 | The state becomes `WithNotifications(old, b)`. |
| Settings.SettingsStore.SetHapticEnabled | src/features/settings/model/store.ts:29 | The state becomes `WithHaptic(old, b)`. |

## Left out

- Persistence is not modelled: the `persist` middleware and its storage. The stores are modelled as in memory.
- Notification delivery is not modelled: `sendAlertNotification` and the permission request. They are asynchronous calls into the platform; the model records each call as a `Notification`.
- The subscription that runs `checkAlerts` on every coin store change is not modelled. Each call is a `CheckAlerts` call.
- React rendering, `useMemo` caching, the screens and the UI are not modelled, and neither are network I/O and the market-data query. The snapshot is a parameter.
- The `onStatusChange` callback that `connectBinanceWS` passes only logs, so the coin store's `wsStatus` is not wired to the feed. `SetWsStatus` is modelled on its own.
- Strings.ToLower and Strings.ToUpper map only ASCII letters. JavaScript's full Unicode case mapping is not modelled.
- Numbers are real numbers. NaN, infinities and floating-point rounding are not modelled. `parseFloat` is an uninterpreted parameter, so a malformed numeric string is not distinguished.
- Ticker elements are assumed to have the `BinanceTickerData` shape. A frame element without a string `s` would throw in the source; here it is not representable.
- The inverse table is written out as a constant. `ReverseIsInverse` proves that it is exactly the inversion the source computes.
- BinanceFeed.Feed.ConnectBinanceWS: the old manager's socket callbacks still run after it is replaced, and they would deliver to the new handler. The model treats a disconnected manager as torn down and does not route its late frames.
- The heartbeat interval is modelled as a flag, and a second `onopen` overwriting a running interval is not modelled.
- AlertChecking.AlertChecker.CheckAlerts: `triggerAlert` reads the clock on every call. The model uses one reading, `now`, for the whole pass.
- AlertModel.AlertStore.AddAlert: the source reads the clock twice, once for the id and once for `createdAt`; both readings are parameters. When there is room, the new id must not be taken yet. A strictly increasing clock guarantees this (`FreshAlertId`), but the source would accept a repeated id.
- PortfolioModel.PortfolioStore.AddHolding: the new id must not be taken yet. `FreshHoldingId` shows that a strictly increasing clock guarantees it.
- PortfolioModel.PortfolioStore.UpdateHolding: an update whose field is present but `undefined` is not modelled. An absent field and an `undefined` one are both `None`.
- PortfolioValuation.SortByValueDesc: sort stability is not proved. The source's comparator also gives no stability guarantee beyond the engine's.
- PortfolioModel.PortfolioStore.SelectHoldings is a plain accessor and has no contract of its own.
- CoinModel.Lookup, like the store's `realtimePrices[coinId]`, is a lookup in a plain object. In the source a key inherited from `Object.prototype`, such as `"constructor"` or `"toString"`, yields that prototype member rather than `undefined`; the model answers `None` for it. Real CoinGecko ids never have these names.
- CoinModel.CoinStore.GetRealtimePrice: the same difference as `Lookup`, for inherited property names.
- CoinModel.SelectRealtimePrice: the same difference as `Lookup`, for inherited property names.
- BinanceFeed.GetBinanceSymbol: `COINGECKO_TO_BINANCE[coingeckoId]` is a plain-object lookup too, so an inherited property name would yield a prototype member in the source; the model answers `None`.
- SocketManager.WebSocketManager follows the corrected `connect` and `attemptReconnect` of the two findings below, and so do the Tidy, TeardownIsFinal and DisconnectIsFinal members, which are stated for the corrected version only. The step functions, `Apply`, `Run`, the invariant lemmas and the delay lemmas take the version as a parameter and hold as written too.
- SocketManager.Apply lets the close of a socket that `ws` no longer refers to (`OldSocketClosed`) happen at any time, more often than the source could. Every property proved holds of this larger set of runs. An `onerror` of any socket is `SocketErrored`.

## Findings

| source | as written | input that shows it | evidently intended | confidence | as-written member | corrected member |
|---|---|---|---|---|---|---|
| src/shared/api/websocket-manager.ts:87-99 | `attemptReconnect` overwrites `reconnectTimer` without clearing a timeout that is still pending, so `clearReconnectTimer` can no longer cancel it. | Through the class's public methods: connect; the socket closes, which schedules timeout 1. Connect again before it runs; that socket closes, which schedules timeout 2 over the handle. Then disconnect. Timeout 1 still runs, clears the manual-close flag and opens a new socket after teardown. The app's own callers do not reach this: `connectBinanceWS` builds a fresh manager for every call (src/widgets/market-list/MarketList.tsx:43), and the only other caller of `connect` is the timeout itself (websocket-manager.ts:97). | At most one reconnect is pending, and `disconnect` is final. | high (not executed) | SocketManager.OrphanedReconnectResurrects | SocketManager.DisconnectIsFinal |
| src/shared/api/websocket-manager.ts:32-38 | `connect` returns early only for an open socket. A socket still connecting is replaced without being closed, and its callbacks still run on the manager. | Through the class's public methods: connect, and connect again before the first socket opens. Then disconnect. When the first socket opens, its `onopen` reports `connected` and starts a heartbeat on the torn-down manager. Nothing the manager does stops it; only the stray socket's own later `onclose` would. The app's own callers do not reach this, for the same reason as above. | `disconnect` is final: no socket of the manager reports or starts anything after it. | high (not executed) | SocketManager.StrayOpenAfterDisconnect | SocketManager.DisconnectIsFinal |
