# Breakouts market-data core in Dafny

This project models the four stateful parts of the Breakouts stock dashboard
and proves properties of them.

**The market-data hub** (`server.js`, class `MarketDataHub`) keeps one
streaming connection to the market-data provider and many browser clients.
It holds:
- the subscribed-symbol set;
- the latest-bar, latest-price and last-trade-time caches;
- a bounded reconnect counter;
- a flag for the REST poll that covers for a quiet stream.

It routes provider messages into the caches and broadcasts them. It
reconciles the subscribed set against a client's request. It sends each new
client a snapshot. Every socket send is modelled as an append to the hub's
`outbound` log.

**The stock store** (`src/stores/stockStore.js`) lives in the browser. It
keeps daily and one-minute candles per ticker, the latest realtime bar, the
live price record and the load errors. It folds the hub's messages into
them:
- a trade merges into the last candle or opens a new one;
- a bar replaces or appends, and the one-minute series is capped at 390 bars;
- `getStockData` and `isMarketOpen` compute a stock card's figures.

**The top-movers store** (`src/stores/topMoversStore.js`) maps each ticker
to its latest price and its intraday open. The ranking is computed from that
map: keep the gainers, sort by percent change (largest first), take ten.
The initial scan works in batches of 50. The rescan works in batches of 100
and merges into the existing map. A single-ticker update recomputes one
entry's change against its stored open.

**The stock groups** (`src/config/stockGroups.js`) are four named ticker
lists. Each list is parsed out of one spreadsheet tab's CSV export: split on
newlines, trim, keep the `^[A-Z]+$` lines. An empty list falls back to built-in
tickers. The groups are cached for five minutes. A synchronous getter serves
the cache, or the fallback structure when there is no cache.

The modules:
- `Common` (`common.dfy`): shared helpers. `OMap` is an insertion-ordered
  map, modelling a JavaScript `Map`'s iteration order. Sets are distinct
  sequences, modelling a JavaScript `Set`.
- `Market` (`market.dfy`): the bar record, the event types clients receive,
  the market-hours gate and the percent-change rule.
- `Hub` (`hub.dfy`): the hub.
- `StockStore` (`stockstore.dfy`): the stock store.
- `TopMovers` (`topmovers.dfy`): the top-movers store.
- `StockGroups` (`stockgroups.dfy`): the stock groups.

Each state-bearing object is a `class` whose methods update its fields.
Each method is proved against specification functions on its old state.
The properties the code promises are lemmas about those functions.

Inputs the code gets from the environment are parameters of the operations
that use them:
- the clock (`now`, `today`, `midnight`, `hourMinute`);
- exchange minute of day, and the host-local day of week;
- fetch results: latest trade, CSV text, ticker data.

Timers are modelled as state:
- the poll interval is the flag `pollActive`, and one interval tick is the method `PollTick`;
- a pending reconnect timeout is the counter `pendingReconnects`, and it firing is `OnReconnectTimer`.

Prices, mid-prices and percentages are `real`. Times are `nat` milliseconds.

Where the code and its design notes disagree, the model follows the code:
- `subscribeToSymbols` checks only that the upstream socket is OPEN. It does not check that the connection is authenticated.
- Unsubscribing a symbol keeps its `latestBars` entry, so later snapshots still carry that bar.
- The reconnect counter resets when the transport opens, not on authentication.
- The constructor starts the poll with no client connected. `addClient` never starts it. Only `updateSubscriptions` restarts it, when a client is connected.
- A push shifts out at most one bar. A series that already holds more than 390 bars therefore stays longer than 390.
- The trade gate `570 <= minutes <= 960` is inclusive at both ends.
- `fetchSheetAsCSV` catches its own errors, so the catch branch of `loadStockGroups` cannot be reached through it. The model makes that branch a parameter, `unexpectedError`.
- A cache timestamp of 0 is falsy in JavaScript. It counts as "no cache".

## Model

| member | source | states |
|---|---|---|
| Hub.FanoutSpec | server.js:365-374 | a broadcast reaches every client whose socket is OPEN exactly once; no other client; the same event to all |
| Hub.ReconcileSpec | server.js:385-386 | toSubscribe = requested minus current; toUnsubscribe = current minus requested; the two are disjoint; applying them yields the requested set; both are empty iff the two sets agree |
| Hub.DeltaCommands | server.js:388-394 | a subscribe carrying exactly the added symbols is sent iff some were added, an unsubscribe carrying exactly the removed symbols iff some were removed, nothing else is sent, and when both go the subscribe comes first |
| Hub.AfterSubscribeSpec | server.js:283-294 | subscribing adds the symbols to the set, each once, and leaves the price and trade-time caches unchanged |
| Hub.AfterUnsubscribeSpec | server.js:302-316 | unsubscribing removes the symbols from the set, the price cache and the trade-time map, and removes nothing else |
| Hub.DropSymbolsSpec | server.js:303-307 | deleting the symbols one at a time is the same as deleting them all at once from the three structures |
| Hub.AfterReconcileSpec | server.js:376-394 | after reconciling, the subscribed set equals the request; the caches lose exactly the symbols no longer asked for; the provider is sent only the delta commands; a request for the current set changes nothing |
| Hub.ReconcileTwice | server.js:385-394 | asking twice for the same symbols sends nothing the second time and gives the state the first request produced |
| Hub.BarItemsSpec | server.js:326-329 | the snapshot's bar part holds one bar event per cached bar, in the cache's order |
| Hub.CachedPriceItemsSpec | server.js:331-344 | the price part holds a `cached` price update for exactly the priced symbols that have no bar |
| Hub.SnapshotSpec | server.js:323-351 | the snapshot holds every cached bar and a cached price update for exactly the priced symbols without a bar, and nothing else; it is empty iff both caches are empty |
| Hub.SnapshotKeepsUnsubscribedBar | server.js:303-307 | after X is unsubscribed, a snapshot still carries X's bar and has no price update for X |
| Hub.PollStepSpec | server.js:216-253 | a symbol is fetched iff it is stale (more than 10000 ms since its last trade, with an absent entry counting as 0); only its own cached price can change; a price equal to the cached one is neither stored nor broadcast; a changed price is stored and sent to exactly the OPEN clients |
| Hub.PollFoldExtend | server.js:216 | a poll tick over one more symbol is the shorter tick followed by one poll step |
| Hub.PollFoldSpec | server.js:215-261 | over a whole tick, exactly the stale subscribed symbols are fetched; the cached prices of all other symbols stay the same; clients receive only `rest` price updates about subscribed symbols |
| Hub.PollFoldOutcome | server.js:215-253 | over a whole tick, a stale subscribed symbol whose fetched price differs from the price cached before the tick ends with the fetched price, sent as a `rest` update to exactly the OPEN clients and to no one with any other value; one whose fetch failed or returned the cached price keeps its cached entry and clients hear nothing about it |
| Hub.PollFoldStale | server.js:215-253 | the same outcome holds at once for every stale subscribed symbol |
| Hub.MarketDataHub.constructor | server.js:57-71 | the caches, the client set and the subscribed set are empty; the counter is 0; the upstream socket is connecting; polling is on |
| Hub.MarketDataHub.OnUpstreamOpen | server.js:78-91 | on transport open the counter resets to 0 and the credentials are sent |
| Hub.MarketDataHub.OnUpstreamClose | server.js:107-110 | a close marks the socket closed and runs the reconnect rule |
| Hub.MarketDataHub.HandleReconnect | server.js:264-275 | below 5 attempts, the counter and the pending timers each go up by one; at 5, nothing is scheduled; the counter never exceeds 5 |
| Hub.MarketDataHub.OnReconnectTimer | server.js:269-271 | a fired reconnect timer creates a new connecting upstream socket |
| Hub.MarketDataHub.Broadcast | server.js:365-374 | the log grows by exactly the fan-out of the event over the OPEN clients, in client order |
| Hub.MarketDataHub.SubscribeToSymbols | server.js:277-295 | when the upstream socket is not OPEN nothing changes; otherwise the state is the subscribe transition |
| Hub.MarketDataHub.UnsubscribeFromSymbols | server.js:297-317 | when the upstream socket is not OPEN nothing changes; otherwise the state is the unsubscribe transition; the bar cache is untouched |
| Hub.MarketDataHub.UpdateSubscriptions | server.js:376-400 | the state is the reconcile transition (or unchanged when upstream is not OPEN); polling is on afterwards iff it was on or a client is connected |
| Hub.MarketDataHub.AddClient | server.js:319-352 | the client is added once and marked OPEN; the client is sent the snapshot only when the snapshot is non-empty |
| Hub.MarketDataHub.CollectSnapshot | server.js:324-344 | the two loops build exactly the snapshot (`SnapshotOf`) of the two caches |
| Hub.MarketDataHub.RemoveClient | server.js:354-363 | the client is removed; the last client leaving stops the poll |
| Hub.MarketDataHub.OnClientStateChange | server.js:370 | only a registered client's socket state changes |
| Hub.MarketDataHub.OnClientMessage | server.js:639-656 | a subscribe request runs the reconcile transition and then acknowledges to that client alone; any other message, or text that does not parse, changes nothing |
| Hub.MarketDataHub.HandleAlpacaMessage | server.js:113-210 | `authenticated` resubscribes the current set; a bar sets the bar cache and the price cache (to the close) and broadcasts; a trade sets the price and last-trade time and broadcasts only within 570-960 minutes; a quote caches the mid-price and broadcasts; no other symbol's entry changes |
| Hub.MarketDataHub.PollTick | server.js:213-261 | with polling on, the price cache and the log after a tick are exactly those of the poll fold over the subscribed symbols, and every stale subscribed symbol ends with its poll outcome against the cache before the tick; with polling off, nothing changes |
| StockStore.OrElse | src/stores/stockStore.js:46 | JavaScript `s \|\| fallback` on strings: s if it is non-empty, otherwise the fallback |
| StockStore.MergeTrade | src/stores/stockStore.js:74-80 | keeps x and o; h = max(h, p); l = min(l, p); c = p; volume grows by size; afterwards l <= c <= h, and a well-formed candle stays well-formed |
| StockStore.DailyAfterTradeSpec | src/stores/stockStore.js:62-91 | today's candle absorbs the trade; otherwise a trade from today appends exactly one candle with o = h = l = c = p and volume = size; otherwise nothing changes; an empty series is unchanged; well-formedness is kept |
| StockStore.MinuteBucket | src/stores/stockStore.js:105 | the bucket is the start of the minute that holds the timestamp, a multiple of 60000 |
| StockStore.IntradayAfterTradeSpec | src/stores/stockStore.js:111-150 | an empty series gets one candle; the same minute merges into the last candle; a later minute appends a candle, dropping the oldest once past 390; an earlier minute is ignored |
| StockStore.IntradayAfterTradeKeeps | src/stores/stockStore.js:135-149 | a series of at most 390 bars stays within 390; candle start times stay strictly increasing; every candle stays well-formed |
| StockStore.IntradayAfterBarSpec | src/stores/stockStore.js:173-202 | an empty series is unchanged; otherwise the series ends with the bar, which replaces the last bar when hour and minute match and is appended (with the 390 cap) when they do not |
| StockStore.AfterQuote | src/stores/stockStore.js:228-237 | a quote sets bid, ask and their sizes, keeps the earlier price, time and size, and keeps a non-empty source (else `quote`) |
| StockStore.AfterPriceUpdate | src/stores/stockStore.js:246-254 | a price update sets price, time and source (`rest` when empty) and keeps bid, ask and size |
| StockStore.ApplySnapshotConcat | src/stores/stockStore.js:262-278 | applying two runs of snapshot items is applying the first run, then the second |
| StockStore.Store.constructor | src/stores/stockStore.js:28-32 | all maps are empty and nothing is loading |
| StockStore.Store.LoadTickers | src/stores/stockStore.js:34-53 | the chart map and the error map are replaced by one entry per requested ticker; a failed fetch gives empty series and its message (or a generic one); a successful one gives no error |
| StockStore.Store.UpdateDailyCandle | src/stores/stockStore.js:56-100 | the chart map becomes the daily-trade transition (`TradeOnDaily`) |
| StockStore.Store.UpdateIntradayCandle | src/stores/stockStore.js:103-159 | the chart map becomes the intraday-trade transition (`TradeOnIntraday`) |
| StockStore.Store.ApplyBar | src/stores/stockStore.js:173-202 | the chart map becomes the bar transition (`BarOnIntraday`) |
| StockStore.Store.HandleUpdate | src/stores/stockStore.js:163-281 | per message type: which of the realtime bars, live prices and charts change and to what; a snapshot applies its items in order; an acknowledgement changes nothing |
| StockStore.Store.GetStockData | src/stores/stockStore.js:284-333 | with neither a candle nor a live price: hasData false and zero figures; otherwise the open is the first intraday bar's open (falling back to the latest bar's); the price is a non-zero live price (falling back to the latest close); change = price - open; changePercent is 0 when the open is 0 |
| StockStore.Store.Latest | src/stores/stockStore.js:291-293 | `realtime \|\| latestIntraday \|\| latestDaily`, and none exactly when all three are missing |
| StockStore.ErrorOf | src/stores/stockStore.js:42-46 | a load error is absent iff the fetch succeeded, and otherwise is never empty |
| StockStore.TradeOnDaily | src/stores/stockStore.js:56-100 | only the symbol's daily series changes, to `DailyAfterTrade`; no key is added |
| StockStore.TradeOnIntraday | src/stores/stockStore.js:103-159 | only the symbol's intraday series changes, to `IntradayAfterTrade`; no key is added |
| StockStore.BarOnIntraday | src/stores/stockStore.js:173-202 | only the symbol's intraday series changes, to `IntradayAfterBar`; no key is added |
| StockStore.IsMarketOpen | src/stores/stockStore.js:335-350 | false on host-local day 0 or 6; otherwise true exactly when 570 <= exchange minutes <= 960, which is the same window in which the hub forwards trades |
| TopMovers.GainersSpec | src/stores/topMoversStore.js:35-38 | the filters keep exactly the entries with price > 0 and changePercent > 0 |
| TopMovers.InsertDescSpec | src/stores/topMoversStore.js:39 | inserting into a sorted list keeps it sorted and adds exactly the element |
| TopMovers.ConsSorted | src/stores/topMoversStore.js:39 | a head no smaller than the first element keeps a list sorted |
| TopMovers.SortDescSpec | src/stores/topMoversStore.js:39 | the sort is non-increasing in changePercent and is a permutation of its input |
| TopMovers.SortedPrefixDominates | src/stores/topMoversStore.js:39-40 | in a sorted list nothing past position k beats anything before it |
| TopMovers.MoversOfEntries | src/stores/topMoversStore.js:26-34 | the pipeline's rows are exactly the map's entries, one per ticker |
| TopMovers.RankShape | src/stores/topMoversStore.js:12-40 | the ranking has min(10, number of gainers) rows, is a prefix of the sorted gainers, and is sorted |
| TopMovers.RankRows | src/stores/topMoversStore.js:26-38 | every ranked row is a gainer read off its own ticker's map entry |
| TopMovers.RankDominates | src/stores/topMoversStore.js:38-40 | no gainer left out beats a ranked row, and a gainer is left out only when the ranking is full |
| TopMovers.RepriceSpec | src/stores/topMoversStore.js:201-220 | an unknown ticker changes nothing; a known one gets price, change = newPrice - open, changePercent and the time, and keeps its place, open and volume; other tickers are untouched; changePercent is 0 when open is 0 |
| TopMovers.BatchesSpec | src/stores/topMoversStore.js:66-70 | the slices, laid end to end, are the ticker list from the start index; none is empty or longer than the batch size |
| TopMovers.BatchesFull | src/stores/topMoversStore.js:69-70 | all slices but the last are full |
| TopMovers.ScanEntry | src/stores/topMoversStore.js:78-115 | a ticker's scan gives an entry iff both fetches succeed and the intraday series is non-empty; the open is the first bar's open; change and changePercent are taken against it |
| TopMovers.ScanAllConcat | src/stores/topMoversStore.js:69-124 | scanning two ticker lists in a row is scanning their concatenation |
| TopMovers.ScanAllSpec | src/stores/topMoversStore.js:117-124 | after a scan the map holds exactly the earlier entries plus the tickers whose scan succeeded, each with its scan result |
| TopMovers.ScanBatchesFlat | src/stores/topMoversStore.js:69-133 | scanning batch by batch is scanning the concatenated batches |
| TopMovers.InitialScanSpec | src/stores/topMoversStore.js:65-133 | the batched scan from an empty map visits every ticker once, in order |
| TopMovers.RescanEntry | src/stores/topMoversStore.js:155-181 | a rescan result exists iff the fetch succeeded and the ticker has an entry with a non-zero open; it keeps that open and takes the fetched size, or the old volume when the size is 0 |
| TopMovers.ApplyResultsSpec | src/stores/topMoversStore.js:186-194 | merging results keeps the key order; a ticker with a result ends with one of its results; any other ticker keeps its entry |
| TopMovers.RescanBatchSpec | src/stores/topMoversStore.js:153-194 | a rescan batch adds and removes no ticker and changes no open; tickers outside the batch are untouched; a ticker with a result gets it |
| TopMovers.RescanSpec | src/stores/topMoversStore.js:147-198 | the whole rescan keeps the same tickers in the same order and the same opens, and leaves tickers that were not rescanned unchanged |
| TopMovers.TopMoversStore.constructor | src/stores/topMoversStore.js:6-9 | the map and the ranking start empty |
| TopMovers.TopMoversStore.GetTopMovers | src/stores/topMoversStore.js:51-53 | exactly the ranked tickers, in rank order |
| TopMovers.TopMoversStore.IsInTopMovers | src/stores/topMoversStore.js:226 | true iff some ranked row has that ticker |
| TopMovers.TopMoversStore.UpdateStockData | src/stores/topMoversStore.js:201-221 | the map becomes `Reprice` of the old map, and the ranking matches the new map |
| TopMovers.TopMoversStore.RescanAllStocks | src/stores/topMoversStore.js:147-198 | the map becomes the batched rescan (batches of 100) of the old map; the ranking matches it |
| TopMovers.TopMoversStore.InitializeAllTickers | src/stores/topMoversStore.js:61-144 | no tickers leaves the map unchanged; otherwise the map becomes the scan of all tickers from an empty map; the ranking matches it; the result is the ranked tickers |
| TopMovers.ScanBatch | src/stores/topMoversStore.js:78-124 | one batch's successful scans are set into the map in order |
| TopMovers.FetchResults | src/stores/topMoversStore.js:155-183 | each result is computed against the map as it stood before the batch |
| TopMovers.MergeResults | src/stores/topMoversStore.js:186-194 | the non-null results are set into a copy of the map in order |
| TopMovers.ScanStep | src/stores/topMoversStore.js:69-70 | the batched scan from index i is one batch followed by the scan from i + 50 |
| TopMovers.RescanStep | src/stores/topMoversStore.js:152-153 | the batched rescan from index i is one batch followed by the rescan from i + 100 |
| StockGroups.NewlineIndex | src/config/stockGroups.js:70 | the position of the first newline, or the length when there is none |
| StockGroups.SplitLinesPieces | src/config/stockGroups.js:70 | `split('\n')` gives at least one piece, and no piece contains a newline |
| StockGroups.SplitLinesJoin | src/config/stockGroups.js:70 | joining the pieces with newlines gives the text back |
| StockGroups.LeadingTrimmed | src/config/stockGroups.js:72 | trim drops a leading run of whitespace and line terminators and stops at the first other character |
| StockGroups.TrailingKept | src/config/stockGroups.js:72 | trim drops a trailing run of whitespace and line terminators and stops at the last other character |
| StockGroups.TrimSlice | src/config/stockGroups.js:72 | a trimmed line is a contiguous slice of the line |
| StockGroups.TrimEnds | src/config/stockGroups.js:72 | a trimmed line does not start or end with a trimmable character |
| StockGroups.TrimUntrimmable | src/config/stockGroups.js:72 | a line that neither starts nor ends with a trimmable character is its own trim |
| StockGroups.UpperChar | src/config/stockGroups.js:75 | `toUpperCase` maps each lower-case ASCII letter to its own capital (32 code points lower) and leaves every other ASCII character alone |
| StockGroups.ToUpperTicker | src/config/stockGroups.js:75 | upper-casing a line of capital letters changes nothing |
| StockGroups.NonEmptyRedundant | src/config/stockGroups.js:73-74 | the empty-line filter is subsumed by the ticker filter |
| StockGroups.UpperEachTickers | src/config/stockGroups.js:74-75 | the final `toUpperCase` is the identity on lines the ticker filter kept |
| StockGroups.TickerLinesAreTickers | src/config/stockGroups.js:74 | every line the ticker filter keeps matches `^[A-Z]+$` |
| StockGroups.TickerLinesOfTrimmed | src/config/stockGroups.js:72-74 | trimming then filtering is the reference reading: each line's trimmed form, kept when it is a ticker |
| StockGroups.ParseTickersSpec | src/config/stockGroups.js:70-75 | the parsed list is the reference reading of the lines, and every parsed ticker is non-empty and A-Z only |
| StockGroups.KeptLinesMembers | src/config/stockGroups.js:71-74 | t is parsed iff t matches `^[A-Z]+$` and some line trims to t |
| StockGroups.KeptLinesOrder | src/config/stockGroups.js:71-74 | two kept lines appear in the parsed list in their source order |
| StockGroups.FetchSheetTickers | src/config/stockGroups.js:44-83 | a failed fetch gives the empty list; a fetched text gives its parsed tickers |
| StockGroups.WithTickers | src/config/stockGroups.js:15-36 | a group carries its metadata key and exactly the given tickers |
| StockGroups.FallbackSpec | src/config/stockGroups.js:86-91 | every fallback list is non-empty and made of tickers |
| StockGroups.MakeGroupSpec | src/config/stockGroups.js:117-122 | a non-empty parsed list is used as it is; an empty one is replaced by the group's fallback; no group ends up empty |
| StockGroups.GetGroupIds | src/config/stockGroups.js:172-174 | the four metadata keys, in declaration order |
| StockGroups.GroupIndex | src/config/stockGroups.js:7-12 | every group has its place in the declaration order |
| StockGroups.KeyInjective | src/config/stockGroups.js:15-36 | two groups never share a key |
| StockGroups.GetGroupIdsSpec | src/config/stockGroups.js:172-174 | the keys are distinct, and a string is among them iff it is some group's key |
| StockGroups.KeysOf | src/config/stockGroups.js:117-119 | the property names written, one per group, in order |
| StockGroups.AssembleGroupsSpec | src/config/stockGroups.js:116-122 | filling an object with groups of distinct keys gives exactly those keys in fill order, each with its own group |
| StockGroups.AssembleInOrder | src/config/stockGroups.js:116-145 | all four groups assembled in declaration order give the four metadata keys, each present |
| StockGroups.GroupsFromSpec | src/config/stockGroups.js:106-134 | after a load that did not fail, the groups are the four metadata keys in order, each with its tab's tickers or its fallback |
| StockGroups.FallbackGroupsSpec | src/config/stockGroups.js:135-150 | after a failed load, every metadata group has its fallback tickers |
| StockGroups.GroupsNeverEmpty | src/config/stockGroups.js:117-145 | whatever the load's outcome, no group is without tickers |
| StockGroups.CacheFreshWindow | src/config/stockGroups.js:96-98 | a cache stamped at a non-zero time t serves unforced loads exactly until t + 300000 ms, and never serves a forced one |
| StockGroups.StockGroupsGet | src/config/stockGroups.js:177-200 | with a cache, the cache's entry (undefined for an unknown key); with no cache, the fallback structure's entry |
| StockGroups.Assemble | src/config/stockGroups.js:116-122 | the fill loop builds the assembled groups in declaration order |
| StockGroups.StockGroupsStore.constructor | src/config/stockGroups.js:39-40 | no cache and no timestamp |
| StockGroups.StockGroupsStore.LoadStockGroups | src/config/stockGroups.js:94-152 | when the cache is fresh it is returned and nothing changes; otherwise the groups are rebuilt from the tabs (or from the fallbacks, when the body threw) and become the cache, stamped with the clock read after the fetches |

## Left out

- The `throttle` wrapper of `updateIntradayCandle` (src/stores/stockStore.js:6-25) is not modelled. It depends on timers and trailing calls. `UpdateIntradayCandle` models the wrapped body, called every time.
- Time-zone conversion (`toLocaleString(..., "America/New_York")`) is not modelled. The exchange minute of day and the host-local day of week are inputs. So are local midnight and local hour and minute.
- StockStore.IsMarketOpen: takes the day of week as the host reads it, as `isMarketOpen` does. Near midnight, a host outside the exchange's time zone can disagree with the exchange about the day. The model does not reconcile the two.
- `getMarketOpen` and the HTTP endpoints (server.js:403-625) are not modelled. They are host-calendar arithmetic and fetch-and-reshape proxies.
- Express, CORS, the WebSocket servers and their event wiring are not modelled, apart from the subscribe handler. `setInterval` and `setTimeout` are the `pollActive` flag and the `pendingReconnects` counter.
- JSON parsing of client and provider frames is not modelled. A client frame is modelled as already parsed into `ClientRequest`, and a provider frame as already split into `AlpacaMessage` elements.
- The `await` points inside the poll loop, `Promise.all` and the delay between scan batches are not modelled. The model runs each loop to completion with no interleaving.
- Logging (`console.*`) and the progress callback of `initializeAllTickers` are not modelled.
- The upstream `error` event only logs, so it is not modelled.
- NaN filtering in the ranking (`!isNaN`) is not modelled: `real` has no NaN. IEEE rounding is not modelled either, and `volume || 0` is the volume itself.
- The ranking's `sort` is modelled as a stable insertion sort. JavaScript engines sort stably, but the comparator `b - a` is not modelled for NaN.
- `src/services/dataService.js` is not part of this model. `Store.HandleUpdate` models the store's handler on every message type the hub sends, even though that client forwards only `bar` messages. `loadTickers`' fetch is a parameter.
- The two concurrent `loadTickers` calls and their last-writer-wins race are not modelled. `LoadTickers` runs to completion.
- `fetchSheetAsCSV`'s direct fetch with a CORS-proxy fallback is collapsed into its outcome, `SheetResult`: CSV text or a failure.
- `initializeStockGroups` and `getStockGroup` are not modelled. Their promise memoisation and `await` have no counterpart here.
- `window.debugStockGroups` and the `STOCK_GROUPS` Proxy's `ownKeys` and `getOwnPropertyDescriptor` traps are not modelled. Only the getter's value is.
- Property lookups that reach `Object.prototype`, such as `STOCK_GROUPS.toString`, are not modelled.
- StockGroups.UpperChar: does not model `toUpperCase` on non-ASCII characters; treating them as unchanged does not matter, because the parsed lines hold only A-Z.
- `getTopMoversData`, `getAllStocksCount` and `getLastUpdateTime` are field reads or formatting, so they are not modelled.
- The UI components, `App.jsx`, `index.jsx` and `vite.config.js` are not modelled.
