# Stock-quote service: a verified model of its real-time core

This project models, in Dafny, the state-keeping core of a stock and crypto
quote service written in Python (FastAPI). The core covers:

- the 60-second quote cache in front of the quote provider, with the
  symbol-selection step of its background refresher;
- the two watch-list collectors, a scheduler and an auto collector, with
  their start/stop flags, counters, waits and status reports;
- the per-symbol request statistics record and the quote row defaulting of
  the database service;
- the crypto cache, and the field checks applied before a crypto quote is
  stored;
- the connection and subscription registries and their fan-out: the typed
  connection manager, the flat managers, the symbol-tagged client list, the
  per-symbol reader registration, the chat rooms, the chat list and the echo
  list;
- the shaping of the `market_update`, `stock_update` and `crypto_update`
  frames from the stored quotes, both in the market routes module and in the
  handler classes;
- the mock-investment start endpoint.

Most Python modules become one Dafny module each, and the modules follow
how the code works:

- **Objects the code mutates become classes.** Examples are the managers,
  the caches, the collectors, the statistics record and the balances table.
  Their methods carry `modifies` clauses and state the whole new state.
- **Pure shaping becomes functions.** Examples are frames, items, histories,
  the guard chain and the field checks. They are connected to the loops that
  compute them by the loops' postconditions.
- **Things outside the model become inputs.** These are the network, the
  database, the clock and the outcome of each send:
  - a fetch becomes an outcome datatype;
  - a query becomes its rows, newest first;
  - the time is a `now` parameter;
  - a send becomes membership in a `failing` set of connection identities.

Four Dafny modules have no single Python counterpart:

- `Common` holds the list operations the registries share. These are
  `list.remove`, filtering, and "collect the failures, then remove each".
  It also holds the lemmas that relate them.
- `WatchList` holds the 50-symbol watch-list and the ten crypto pairs.
- `MarketFrames` and `SymbolStream` hold the frame shaping that
  stock/backend/websocket_routes.py and the handler classes under
  stock/backend/websocket/handlers/ both carry out. The routes file is
  modelled by `WebsocketRoutes` together with these two modules.

## Model

| member | source | states |
|---|---|---|
| FinnhubService.Formatted | stock/backend/services/finnhub_service.py:62-86 | a quote exists exactly for a 200 response whose body has 'c', 'o', 'h', 'l' and 'pc'; it carries the symbol, `str(c)` as price, the stamp, and "0" as volume when 'v' is absent |
| FinnhubService.MockQuote | stock/backend/services/finnhub_service.py:96-107 | the placeholder quote has the symbol, price "150.00" and the current stamp |
| FinnhubService.QuoteCache.constructor | stock/backend/services/finnhub_service.py:20-21 | both dicts start empty |
| FinnhubService.QuoteCache.Store | stock/backend/services/finnhub_service.py:79-80 | one write sets the symbol in both dicts, so they keep the same keys |
| FinnhubService.QuoteCache.GetStockQuote | stock/backend/services/finnhub_service.py:24-113 | `QuoteServed` from the old dicts and key order to the new ones: BINANCE: symbols give None and change nothing; an entry younger than 60 s is returned with no call; a successful call is stored in both dicts and returned; a failed call returns the old entry unchanged, or caches and returns the mock quote; the result is always what the cache holds |
| FinnhubService.QuoteCache.GetStockDataForBroadcast | stock/backend/services/finnhub_service.py:115-129 | None exactly for crypto symbols; otherwise a `stock_update` frame holding the quote `get_stock_quote` serves, with the same effect on both dicts and the key order (`QuoteServed`) |
| FinnhubService.QuoteCache.SymbolsToUpdate | stock/backend/services/finnhub_service.py:137-149 | exactly the cached non-BINANCE symbols whose last write is at least 60 s old, each once, in the dict's key order (`StaleSymbols` of the key order) |
| FinnhubService.StaleSymbols | stock/backend/services/finnhub_service.py:137-149 | a key is in the result exactly when it is a stock symbol last written at least 60 s before now; never longer than the keys |
| FinnhubService.FabricatedQuoteServedAsFresh | stock/backend/services/finnhub_service.py:96-113 | after a failed first call, a second call within 60 s returns the fabricated 150.00 quote whatever the provider now answers |
| SchedulerService.CountSaved | stock/backend/services/scheduler_service.py:83-84 | the successes of a pass number at most its attempts |
| SchedulerService.CountFailed | stock/backend/services/scheduler_service.py:86-98 | the errors of a pass number at most its attempts |
| SchedulerService.EveryAttemptCountedOnce | stock/backend/services/scheduler_service.py:70-98 | every attempted symbol increments exactly one of the two counters |
| SchedulerService.CycleWait | stock/backend/services/scheduler_service.py:110-115 | a cycle shorter than 60 s waits the remainder of the minute (positive); a longer one does not wait |
| SchedulerService.StockDataScheduler.constructor | stock/backend/services/scheduler_service.py:23-27 | stopped, with both counters at 0 |
| SchedulerService.StockDataScheduler.StartScheduler | stock/backend/services/scheduler_service.py:29-37 | a no-op while running; otherwise sets the flag and starts one thread |
| SchedulerService.StockDataScheduler.StopScheduler | stock/backend/services/scheduler_service.py:42-46 | clears the flag and keeps the counters |
| SchedulerService.StockDataScheduler.RunCycle | stock/backend/services/scheduler_service.py:54-102 | the symbols attempted are the watch-list prefix before the flag is first read as false, in order; the error counter grows by the failed attempts and `processed_count` by the pass's successes |
| SchedulerService.StockDataScheduler.CycleOver | stock/backend/services/scheduler_service.py:61-102 | the same pass over any symbol list: its prefix before the flag is first read as false is attempted in order, with the same counter updates |
| SchedulerService.StockDataScheduler.GetStatus | stock/backend/services/scheduler_service.py:123-131 | 50 monitored symbols, the counters as they are, and a success rate that is the successes' share in percent, 0 when nothing was counted |
| SchedulerService.CycleCountsAttempts | stock/backend/services/scheduler_service.py:61-102 | over one pass the two counters together grow by the number of symbols attempted |
| AutoCollector.QuoteRecordOf | stock/backend/services/auto_collector.py:149-158 | the record carries the symbol and every price field of the response, 0 when absent |
| AutoCollector.CollectSingleStock | stock/backend/services/auto_collector.py:138-172 | success exactly for a 200 answer with a readable body and a successful save; the save happens exactly for such an answer, with the defaulted record; an unreadable body fails without saving |
| AutoCollector.CountSuccess | stock/backend/services/auto_collector.py:126-128 | the successes of a round number at most its results |
| AutoCollector.CountError | stock/backend/services/auto_collector.py:123-131 | the errors of a round number at most its results |
| AutoCollector.EveryResultClassifiedOnce | stock/backend/services/auto_collector.py:120-131 | every result is counted exactly once, as a success or as an error |
| AutoCollector.RoundWait | stock/backend/services/auto_collector.py:80-85 | the wait is always 60 s, so the overrun branch is never taken |
| AutoCollector.BuildTasks | stock/backend/services/auto_collector.py:106-111 | the tasks are the watch-list prefix before the flag is first read as false |
| AutoCollector.TasksOver | stock/backend/services/auto_collector.py:106-111 | over any symbol list, the tasks are its prefix before the flag is first read as false |
| AutoCollector.TallyResults | stock/backend/services/auto_collector.py:117-131 | the round counts are the successes and errors of the results and add up to their number |
| AutoCollector.StockAutoCollector.constructor | stock/backend/services/auto_collector.py:23-31 | the endpoint URL is built from host and port; stopped, counters at 0 |
| AutoCollector.StockAutoCollector.StartCollector | stock/backend/services/auto_collector.py:33-41 | a no-op while running; otherwise sets the flag and starts one thread |
| AutoCollector.StockAutoCollector.StopCollector | stock/backend/services/auto_collector.py:47-51 | clears the flag and keeps the counters |
| AutoCollector.StockAutoCollector.CollectAllStocks | stock/backend/services/auto_collector.py:93-134 | the tasks are the watch-list prefix, each result counted once, and the cumulative counters grow by exactly the round counts |
| AutoCollector.StockAutoCollector.GetStatus | stock/backend/services/auto_collector.py:174-187 | the total is successes plus errors and the rate their share in percent, 0 when the total is 0 |
| DbService.StockQuoteRowOf | stock/backend/services/db_service.py:22-35 | every numeric column takes its key's value or 0 when missing; the market timestamp is taken as given; the data source defaults to "api" |
| DbService.StockCacheRow.constructor | stock/backend/services/db_service.py:97-106 | a new record counts one request, as a provider call (1/0) or a cache hit (0/1), so total = calls + hits; both times are now |
| DbService.StockCacheRow.Touch | stock/backend/services/db_service.py:80-94 | one more request, counted in exactly one of the two counters, so total = calls + hits is kept; `last_update` is now, `last_api_call` only moves for a provider call; the mean response time is unchanged unless the time is positive, and then is the new running mean |
| DbService.StockDatabaseService.constructor | stock/backend/services/db_service.py:14-15 | the table starts empty |
| DbService.StockDatabaseService.SaveStockQuote | stock/backend/services/db_service.py:17-46 | a successful commit appends exactly the defaulted row and reports True; a failed one reports False and adds nothing |
| DbService.StockDatabaseService.UpdateCacheInfo | stock/backend/services/db_service.py:69-112 | with a successful commit, an existing record is updated as `Touch` states: its total grows by one, exactly the matching counter grows, `last_api_call` moves only for a call, and the running mean takes in a positive time; otherwise a fresh record counts one call or one hit; total = calls + hits is kept; with a failing commit nothing is stored |
| CryptoCache.CryptoService.constructor | stock/backend/services/crypto/crypto_service.py:15-16 | the cache starts empty |
| CryptoCache.CryptoService.GetCachedCryptoData | stock/backend/services/crypto/crypto_service.py:18-20 | the stored dict, or `{}` for a symbol never stored |
| CryptoCache.CryptoService.UpdateCache | stock/backend/services/crypto/crypto_service.py:22-24 | afterwards the symbol reads back the stored dict, every other symbol reads what it did before, and the count grows only for a new symbol |
| CryptoCache.CryptoService.GetSupportedSymbols | stock/backend/services/crypto/crypto_service.py:26-28 | the fixed list of ten pairs |
| CryptoCache.CryptoService.GetStatistics | stock/backend/services/crypto/crypto_service.py:30-36 | the supported pairs, the number of distinct cached symbols, and a thread flag that is always false |
| CryptoCache.CachedCountGrowsOnlyForNewSymbols | stock/backend/services/crypto/crypto_service.py:22-34 | storing a pair twice leaves the cached count at one |
| CryptoQuoteService.Check | stock/backend/services/crypto_service.py:23-43 | the checks run in the order symbol, s, p, t, each failing exactly when the earlier ones pass and its field is falsy; only the exact text "0" is refused as a zero price |
| CryptoQuoteService.NatText | stock/backend/services/crypto_service.py:54 | the decimal text of a number is non-empty and all digits |
| CryptoQuoteService.IntOf | stock/backend/services/crypto_service.py:54 | `int()` keeps an integer and raises for None |
| CryptoQuoteService.NatTextRoundTrip | stock/backend/services/crypto_service.py:54 | reading back the decimal text of a number gives the number |
| CryptoQuoteService.TimestampTextRoundTrip | stock/backend/services/crypto_service.py:54 | a timestamp sent as its decimal text is stored as the same integer |
| CryptoQuoteService.RowOf | stock/backend/services/crypto_service.py:49-55 | an accepted quote is stored with symbol and s as given, `str(p)`, `str(v)` and `int(t)`; there is a row exactly when `int(t)` succeeds |
| CryptoQuoteService.MissingVolumeStoredAsZero | stock/backend/services/crypto_service.py:26 | a quote without 'v' is stored with volume "0" |
| CryptoQuoteService.CountedVolumes | stock/backend/services/crypto_service.py:140 | the counted volumes are exactly the non-empty values other than "0", each as often as in the input |
| CryptoQuoteService.CryptoQuoteStore.constructor | stock/backend/services/crypto_service.py:13-14 | the store starts empty |
| CryptoQuoteService.CryptoQuoteStore.SaveCryptoQuote | stock/backend/services/crypto_service.py:16-80 | a quote failing a check is refused and nothing is stored; True exactly when the checks pass, the conversion succeeds and the commit goes through, and then exactly the converted row is appended |
| SymbolClients.FrameSymbol | stock/backend/utils/ws_manager.py:20 | the symbol is the `s` field of the frame's first element; the read fails when the list is empty or that field is missing |
| SymbolClients.WithoutConn | stock/backend/utils/ws_manager.py:14-16 | exactly the entries of other connections remain |
| SymbolClients.Recipients | stock/backend/utils/ws_manager.py:22-23 | exactly the connections with an entry for the symbol, and no other |
| SymbolClients.ClientRegistry.constructor | stock/backend/utils/ws_manager.py:5 | the list starts empty |
| SymbolClients.ClientRegistry.SafeAddClient | stock/backend/utils/ws_manager.py:8-10 | exactly one entry is appended at the end |
| SymbolClients.ClientRegistry.SafeRemoveClient | stock/backend/utils/ws_manager.py:12-16 | every entry of the connection goes; the others keep their order |
| SymbolClients.ClientRegistry.BroadcastStockData | stock/backend/utils/ws_manager.py:18-27 | a frame without a readable symbol raises before any send; otherwise exactly the entries of that symbol are sent to, in order; failures are swallowed and the list does not change |
| StockStream.StockEndpoint.constructor | stock/backend/api/stock.py:14 | no readers and no entries at start |
| StockStream.StockEndpoint.Connect | stock/backend/api/stock.py:17-25 | the connection is registered under its symbol; a reader is started only for a symbol without one, so each symbol has at most one |
| StockStream.StockEndpoint.EndSession | stock/backend/api/stock.py:27-32 | a client disconnect removes the connection's entries; any other exception leaves them; readers are never removed |
| StockStream.OneReaderPerSymbol | stock/backend/api/stock.py:21-25 | two viewers of one symbol share a single reader, which outlives both |
| ConnectionManager.ConnectionsOfType | stock/backend/websocket/manager.py:100-103 | exactly the dict's connections whose metadata type is `t` and that are active, each once |
| ConnectionManager.WebSocketManager.constructor | stock/backend/websocket/manager.py:12-14 | no connections and no metadata |
| ConnectionManager.WebSocketManager.Connect | stock/backend/websocket/manager.py:16-21 | the connection is appended and its metadata set to the given dict, or `{}` |
| ConnectionManager.WebSocketManager.Disconnect | stock/backend/websocket/manager.py:27-31 | an active connection loses its first list occurrence and its metadata; for an inactive one nothing changes |
| ConnectionManager.WebSocketManager.SendPersonalMessage | stock/backend/websocket/manager.py:34-44 | a failed send disconnects that connection and no other; a successful one changes nothing |
| ConnectionManager.WebSocketManager.GetConnectionsByType | stock/backend/websocket/manager.py:98-103 | exactly the active connections whose metadata type is `t`, each once |
| ConnectionManager.WebSocketManager.DisconnectFailed | stock/backend/websocket/manager.py:66-67 | each collected connection is removed in turn, with its metadata |
| ConnectionManager.WebSocketManager.Broadcast | stock/backend/websocket/manager.py:46-67 | with no connections nothing happens; otherwise every connection is sent to, and the list becomes the old list without the failed connections, in the same order, with exactly their metadata dropped |
| ConnectionManager.WebSocketManager.BroadcastToType | stock/backend/websocket/manager.py:69-92 | only connections of the type are sent to; exactly the failures among them are removed, and every other connection keeps its presence and metadata |
| ConnectionManager.WebSocketManager.UpdateConnectionData | stock/backend/websocket/manager.py:109-112 | a connection with metadata gets `data` merged into it; for any other nothing changes |
| ConnectionManager.DisconnectStep | stock/backend/websocket/manager.py:66-67 | one more removal in the cleanup loop is one more first-occurrence removal and one more metadata key dropped |
| ConnectionManager.OthersStay | stock/backend/websocket/manager.py:66-67 | removing other connections does not change whether a connection is in the list |
| FlatWsManager.WebSocketManager.constructor | stock/backend/websocket_manager.py:10-11 | no connections |
| FlatWsManager.WebSocketManager.Connect | stock/backend/websocket_manager.py:13-15 | the connection is appended |
| FlatWsManager.WebSocketManager.Disconnect | stock/backend/websocket_manager.py:18-20 | the first occurrence goes; for an absent connection nothing changes |
| FlatWsManager.WebSocketManager.SendPersonalMessage | stock/backend/websocket_manager.py:23-28 | a failed send disconnects that connection; a successful one changes nothing |
| FlatWsManager.WebSocketManager.Broadcast | stock/backend/websocket_manager.py:30-45 | every connection is sent to; exactly the failed ones are removed and the others keep their order; with no connections nothing happens |
| LivingClients.ClientList.constructor | backend/utils/ws_manager.py:5 | the list starts empty |
| LivingClients.ClientList.SafeAddClient | backend/utils/ws_manager.py:8-10 | the connection is appended |
| LivingClients.ClientList.SafeRemoveClient | backend/utils/ws_manager.py:12-14 | the first occurrence goes; for an absent connection `list.remove` raises and the list is unchanged |
| LivingClients.ClientList.BroadcastStockData | backend/utils/ws_manager.py:16-25 | every client is sent to in list order, and the list becomes exactly the clients whose send succeeded, in order |
| ChatRooms.ChatRoomRegistry.constructor | stock/backend/api/chat.py:8 | no rooms |
| ChatRooms.ChatRoomRegistry.Join | stock/backend/api/chat.py:13-16 | the first join for a symbol creates its room; the connection is appended to that room and every other room is unchanged |
| ChatRooms.ChatRoomRegistry.Relay | stock/backend/api/chat.py:19-21 | the message goes verbatim to the room's members in order, stopping exactly at the first send that raises |
| ChatRooms.ChatRoomRegistry.Leave | stock/backend/api/chat.py:22-23 | removal happens exactly when the connection is in its room, and takes out its first occurrence; the room itself stays, even when empty |
| ChatRooms.ChatRoomRegistry.Session | stock/backend/api/chat.py:11-23 | join, then every message relayed to the joined room up to the first raising send; the sender leaves exactly when the loop ends on a disconnect (the last receive or a raising send), and then a sender that was not in the room before leaves the room as it was; a member whose send raised, other than the sender, is still in the room |
| ChatRooms.SenderHearsItself | stock/backend/api/chat.py:13-21 | after two joins to one room a relay reaches both members, the sender included, in join order |
| ChatRooms.DeadMemberStranded | stock/backend/api/chat.py:17-23 | example: when a dead member's send raises a disconnect, the sender is removed, the dead member stays, and the next relay raises at it again |
| ChatClients.ChatClientList.constructor | backend/api/chat.py:8 | the list starts empty |
| ChatClients.ChatClientList.Join | backend/api/chat.py:12-13 | the connection is appended |
| ChatClients.ChatClientList.Relay | backend/api/chat.py:16-18 | the message goes verbatim to every client in order, stopping exactly at the first send that raises |
| ChatClients.ChatClientList.Leave | backend/api/chat.py:19-20 | removal happens exactly when the connection is present, and takes out only its first occurrence; no other client is affected |
| ChatClients.ChatClientList.Session | backend/api/chat.py:11-20 | join, then every message relayed to the list up to the first raising send; the sender leaves exactly when the loop ends on a disconnect, and then a sender that was not listed before leaves the list as it was; a client whose send raised, other than the sender, stays listed |
| EchoApp.ConnectionList.constructor | fastapi_app/src/main.py:20 | the list starts empty |
| EchoApp.ConnectionList.Accept | fastapi_app/src/main.py:33-34 | the connection is appended |
| EchoApp.ConnectionList.Forward | fastapi_app/src/main.py:37-39 | the text goes unchanged to every connection in order, stopping exactly at the first send that raises |
| EchoApp.ConnectionList.Disconnect | fastapi_app/src/main.py:40-41 | removal happens exactly when the connection is present, and takes out only its first occurrence; no other connection is affected |
| EchoApp.ConnectionList.Session | fastapi_app/src/main.py:32-41 | accept, then every text forwarded to the list up to the first raising send; the connection is removed exactly when the loop ends on a disconnect, and then a connection that was not listed before leaves the list as it was; a connection whose send raised, other than the sender, stays listed |
| MockInvestment.Holders | stock/backend/stockDeal/mock_investment.py:31 | a user holds a balance exactly when some row carries the user's id |
| MockInvestment.Decide | stock/backend/stockDeal/mock_investment.py:16-33 | 401 exactly for a missing or empty token or one that does not decode; 404 exactly for an unknown user; 400 exactly for a user who already holds a balance; otherwise creation |
| MockInvestment.MockInvestmentStore.constructor | stock/backend/stockDeal/models.py:27-28 | no balances; the table invariant (one row per user, rows belong to users) holds |
| MockInvestment.MockInvestmentStore.StartMockInvestment | stock/backend/stockDeal/mock_investment.py:10-40 | the answer is the guard chain's verdict; only creation inserts a row, for the decoded user with the 10,000 default; the invariant is kept |
| MockInvestment.SecondStartRefused | stock/backend/stockDeal/mock_investment.py:31-33 | a second start by the same user is refused with 400 after a first one succeeded |
| WatchList.WatchListSize | stock/backend/services/scheduler_service.py:11-17 | the watch-list holds 50 symbols |
| WatchList.CryptoListSize | stock/backend/services/crypto/crypto_service.py:7-10 | the supported crypto list holds 10 symbols |
| MarketFrames.Limit | stock/backend/websocket/handlers/market_handler.py:69-73 | the result is the newest-first prefix of the rows, of length min(n, 30) |
| MarketFrames.OrZero | stock/backend/websocket/handlers/market_handler.py:86-87 | a null or zero change reads as 0; any other value is kept |
| MarketFrames.Timeline | stock/backend/websocket/handlers/market_handler.py:78-83 | one point per oldest-first row, the k-th row at time k + 1 with its price |
| MarketFrames.ItemOf | stock/backend/websocket/handlers/market_handler.py:67-100 | an item, when there is one, carries the symbol it was built for |
| MarketFrames.ItemShape | stock/backend/websocket/handlers/market_handler.py:67-133 | a symbol is left out exactly when its query raises, it has no rows or a price does not convert; otherwise the history runs oldest first over the 30 newest rows, ending at the newest, which gives price, timestamp and (stocks only) change; crypto change is 0 |
| MarketFrames.Items | stock/backend/websocket/handlers/market_handler.py:67-100 | at most one item per symbol |
| MarketFrames.ItemsMembers | stock/backend/websocket/handlers/market_handler.py:67-100 | every item belongs to a listed symbol and is that symbol's item; every listed symbol that has an item appears |
| MarketFrames.ItemsAppend | stock/backend/websocket/handlers/market_handler.py:67-100 | the items of two lists in a row are the first list's items followed by the second's: list order is kept |
| MarketFrames.UnshapedSymbolDropsOut | stock/backend/websocket/handlers/market_handler.py:98-100 | a symbol that fails only drops itself: the frame equals the one built without that symbol |
| MarketFrames.BuildHistory | stock/backend/websocket/handlers/market_handler.py:78-83 | the loop succeeds exactly when every price converts, and then yields the timeline |
| MarketFrames.ShapeItem | stock/backend/websocket/handlers/market_handler.py:68-97 | the query, reverse, history loop and item give exactly `ItemOf` |
| MarketFrames.CollectItems | stock/backend/websocket/handlers/market_handler.py:67-100 | the per-symbol loop gives exactly `Items` of the list |
| MarketFrames.CollectMarketFrame | stock/backend/websocket/handlers/market_handler.py:57-144 | the frame lists the watch-list stocks' items and the ten cryptos' items, at most 50 and 10, marked `database`, and no crypto item carries a change |
| SymbolStream.UpperChar | stock/backend/websocket_routes.py:986 | an ASCII lower-case letter maps to its capital; any other character is kept |
| SymbolStream.Upper | stock/backend/websocket_routes.py:986 | same length, each character upper-cased |
| SymbolStream.UpperIdempotent | stock/backend/websocket_routes.py:986 | upper-casing twice equals upper-casing once |
| SymbolStream.TickHistory | stock/backend/websocket/handlers/stock_handler.py:31-37 | one entry per oldest-first row, carrying its time and price |
| SymbolStream.FrameOf | stock/backend/websocket/handlers/stock_handler.py:22-63 | a frame, when there is one, has the requested kind and symbol |
| SymbolStream.FrameShape | stock/backend/websocket/handlers/stock_handler.py:22-67 | a tick raises exactly when its query raises or a recent price does not convert; an empty store gives the explicit empty answer; otherwise the history runs oldest first over the 30 newest rows and its last entry gives the current price and last update |
| SymbolStream.HistoryChronological | stock/backend/websocket/handlers/stock_handler.py:22-37 | rows stored newest first give a history in non-decreasing time order |
| SymbolStream.BuildTickHistory | stock/backend/websocket/handlers/stock_handler.py:31-37 | the loop succeeds exactly when every price converts, and then yields `TickHistory` |
| SymbolStream.ShapeFrame | stock/backend/websocket/handlers/stock_handler.py:22-63 | the query, reverse, history loop and frame give exactly `FrameOf` |
| SymbolStream.Stream | stock/backend/websocket_routes.py:918-962 | one frame per tick in order, each that tick's `FrameOf`; the loop stops exactly at the first tick that raises |
| WebsocketRoutes.Ramp | stock/backend/websocket_routes.py:735-742 | n points; point k + 1 is the price plus 0.1% per step away from the 16th |
| WebsocketRoutes.CachedChartShape | stock/backend/websocket_routes.py:735-742 | the invented chart has 30 points at times 1..30; the 16th is the price itself and points symmetric around it average to it |
| WebsocketRoutes.CachedChartBand | stock/backend/websocket_routes.py:737 | for a non-negative price every invented point lies within -1.5% .. +1.4% of it |
| WebsocketRoutes.CachedItemOf | stock/backend/websocket_routes.py:731-752 | an item exactly when the cache holds a non-empty entry; it then carries the cached price and changes (0 when absent, always 0 for a crypto), the invented chart, the current time and `cache` |
| WebsocketRoutes.CachedItems | stock/backend/websocket_routes.py:730-781 | at most one item per symbol; every item is its symbol's cached item; every cached symbol appears |
| WebsocketRoutes.CachedFrame | stock/backend/websocket_routes.py:783-793 | the cache frame is marked `cache` and lists at most 50 stocks and 10 cryptos |
| WebsocketRoutes.CachedHistory | stock/backend/websocket_routes.py:735-742 | the chart loop gives exactly the 30-point ramp |
| WebsocketRoutes.CollectCachedItems | stock/backend/websocket_routes.py:730-752 | the per-symbol loop gives exactly `CachedItems` |
| WebsocketRoutes.SendCachedMarketData | stock/backend/websocket_routes.py:714-799 | nothing is sent when the sender raises; otherwise the cache frame |
| WebsocketRoutes.MarketDataFromDb | stock/backend/websocket_routes.py:566-712 | a session that does not raise gives a `database` frame; a `cache` frame only comes without a session or after a raise; nothing is sent exactly when the store path fails and the cache sender raises too |
| WebsocketRoutes.SendMarketDataFromDb | stock/backend/websocket_routes.py:566-712 | the sender hands over exactly `MarketDataFromDb` |
| Common.RemoveFirstAppended | stock/backend/websocket_manager.py:18-20 | disconnecting a connection just appended to a list that lacked it restores the list |
| WebsocketRoutes.SendAll | stock/backend/websocket_manager.py:23-28 | repeated sends to one connection registered once drop it exactly when it fails and at least one send happens |
| WebsocketRoutes.GetLatestCount | stock/backend/websocket_routes.py:831 | at most one per message, and zero exactly when no message is `get_latest` |
| WebsocketRoutes.Replies | stock/backend/websocket_routes.py:825-837 | one market frame per `get_latest` message, each the sender's frame; none when the sender sends nothing |
| WebsocketRoutes.MainSession | stock/backend/websocket_routes.py:801-849 | one frame on connect plus one per `get_latest`; the connection stays registered unless a send to it failed |
| WebsocketRoutes.StocksSession | stock/backend/websocket_routes.py:907-970 | registered, then one `stock_update` frame per tick until a tick raises; the connection stays registered unless a send to it failed |
| WebsocketRoutes.CryptoSession | stock/backend/websocket_routes.py:972-1035 | as the stock session, with the symbol upper-cased in the query and in every `crypto_update` frame |
| WebsocketRoutes.SendStepFailed | stock/backend/websocket_routes.py:860-866 | a failed send removes exactly the connection sent to from the list |
| WebsocketRoutes.SendStepKept | stock/backend/websocket_routes.py:860-866 | a delivered send leaves the list unchanged |
| WebsocketRoutes.SendsBounds | stock/backend/websocket_routes.py:860 | before the sends the list is the snapshot; after them, the snapshot's survivors |
| WebsocketRoutes.SendToEach | stock/backend/websocket_routes.py:860-866 | sending to a snapshot leaves exactly the connections whose send succeeded, in order |
| WebsocketRoutes.BroadcastRound | stock/backend/websocket_routes.py:853-870 | when a frame is sent, every connection of the snapshot is attempted and exactly the failing ones are dropped; otherwise nothing changes |
| MarketHandler.HandlerFrame | stock/backend/websocket/handlers/market_handler.py:50-151 | for given stock and crypto lists, the frame is marked `cache` exactly when the sender raises, and the fallback is empty |
| MarketHandler.HandlerFrameShape | stock/backend/websocket/handlers/market_handler.py:57-144 | a database frame holds at most 50 stocks and 10 cryptos, each the item of a listed symbol, and every listed symbol that has an item appears |
| MarketHandler.MarketDataHandler.constructor | stock/backend/websocket/handlers/market_handler.py:12-13 | the handler keeps its manager; its symbol lists are the watch-list and the ten crypto pairs |
| MarketHandler.MarketDataHandler.SendCachedMarketData | stock/backend/websocket/handlers/market_handler.py:153-172 | the empty `cache` frame is sent; a failing send to an active connection disconnects it and drops its metadata, and otherwise nothing changes |
| MarketHandler.MarketDataHandler.SendMarketDataFromDb | stock/backend/websocket/handlers/market_handler.py:50-151 | the handler frame is sent exactly once, with the same disconnect effect |
| MarketHandler.MarketDataHandler.SendInitialData | stock/backend/websocket/handlers/market_handler.py:15-30 | the handler frame when a session opens, else the cache frame, with the same disconnect effect |
| MarketHandler.MarketDataHandler.BroadcastMarketData | stock/backend/websocket/handlers/market_handler.py:32-48 | every `main` connection is sent the handler frame once; the list loses exactly the failing targets and their metadata; every other connection keeps its membership; without a session nothing changes |
| MarketHandler.MarketDataHandler.SendToEach | stock/backend/websocket/handlers/market_handler.py:39-44 | each distinct active target is sent the frame; the state ends as the targets' failed sends leave it |
| MarketHandler.MarketDataHandler.SendToTarget | stock/backend/websocket/handlers/market_handler.py:40-44 | one send moves the state from after i targets to after i + 1 |
| MarketHandler.UntargetedStay | stock/backend/websocket/handlers/market_handler.py:38-44 | a connection that is not a target, or whose send succeeds, is active after the broadcast exactly when it was before |
| MarketHandler.MainSendFailed | stock/backend/websocket/handlers/market_handler.py:40-44 | a failed send removes that target from the list and its metadata |
| MarketHandler.MainSendKept | stock/backend/websocket/handlers/market_handler.py:40-44 | a delivered send changes neither the list nor the metadata |
| StockHandler.RemoveAbsentRepeated | stock/backend/websocket/manager.py:27-31 | disconnecting an absent connection any number of times changes nothing |
| StockHandler.RepeatedSnoc | stock/backend/websocket/manager.py:27-31 | one more failed send is one more removal at the end |
| StockHandler.PushOne | stock/backend/websocket/handlers/stock_handler.py:48-62 | one send takes the list and metadata from their state after i sends to their state after i + 1; a delivered send changes nothing |
| StockHandler.PushUpdates | stock/backend/websocket/handlers/stock_handler.py:20-68 | one frame per tick in order until the first tick that raises; a failing connection loses one occurrence per frame and its metadata; otherwise the manager is unchanged |
| StockHandler.StockHandler.constructor | stock/backend/websocket/handlers/stock_handler.py:11-12 | the handler keeps its manager |
| StockHandler.StockHandler.HandleStockUpdates | stock/backend/websocket/handlers/stock_handler.py:14-68 | `stock_update` frames for the symbol as given, with the effects of `PushUpdates` |
| CryptoHandler.CryptoHandler.constructor | stock/backend/websocket/handlers/crypto_handler.py:11-12 | the handler keeps its manager |
| CryptoHandler.CryptoHandler.HandleCryptoUpdates | stock/backend/websocket/handlers/crypto_handler.py:14-68 | `crypto_update` frames for the upper-cased symbol, queried upper-cased, with the effects of `PushUpdates` |
| Common.Repeated | stock/backend/websocket/handlers/stock_handler.py:48-62 | n copies of the value: the connection handed to `disconnect` once per failed send |
| Common.RemoveFirst | stock/backend/websocket_manager.py:20 | `list.remove`: an absent element changes nothing; otherwise the list is one shorter, loses exactly one copy of the element, and no other element changes membership |
| Common.Surviving | backend/utils/ws_manager.py:18-25 | exactly the elements outside the failing set remain |
| Common.FailedIn | stock/backend/websocket/manager.py:55-63 | exactly the elements in the failing set are collected |
| Common.Reversed | stock/backend/websocket/handlers/stock_handler.py:28-29 | same length; element k is the element k places from the end |
| Common.RemoveEachFailed | stock/backend/websocket/manager.py:52-67 | collecting the failed connections and then removing each one with `list.remove` leaves exactly the survivors in order, even with repeated connections |
| Common.CollectFailed | stock/backend/websocket/manager.py:55-63 | the loop collects exactly the failed connections, in list order |
| Common.StopIndex | stock/backend/services/scheduler_service.py:61-63 | the pass attempts exactly the symbols before the first false reading of the running flag |
| Common.Percent | stock/backend/services/auto_collector.py:176-177 | 0 for an empty total; otherwise the ratio times 100, always within 0..100 |
| Common.FirstFailing | stock/backend/api/chat.py:20-21 | every element before the index succeeds, and the element at the index (if any) fails |
| Common.SendUntilFailure | backend/api/chat.py:17-18 | the text reaches the recipients in order up to, not including, the first failing one, which is reported |
| Common.RelayEach | backend/api/chat.py:15-18 | the receive-and-relay loop: each message reaches the whole list until a send raises; the last logged message is cut at the first failing recipient, who is reported and is in the list |
| Common.FailingMemberCutsRelay | stock/backend/api/chat.py:20-21 | a list holding a failing member never completes a relay |

## Left out

- **Network and storage.** HTTP calls to the quote provider, WebSocket
  transport and JSON serialisation are replaced by inputs. So are the
  database session, its queries and commits: a fetch is an outcome, a query
  is its rows, a commit is a success flag, a send is membership in
  `failing`.
- **Concurrency and timing.** Threads, asyncio tasks, `gather`, locks and
  sleeps are not modelled, only the per-step state changes and the computed
  waits.
  - The start-on-first-connection and cancel-on-last-disconnect lifecycle of
    the broadcast task is not modelled.
  - One broadcast round is modelled, not the endless loop.
  - The store is fixed during one session or one round: it is an input per
    call, or one input per tick.
  - A chat or echo session runs alone: other sessions joining or leaving
    the same list while its loop waits for a message are not modelled.
- **Floating point.** Prices and rates are `real`.
  - `round(success_rate, 2)` in the collector status is not applied.
  - Python's `float()` of a stored price is an `Option<real>` input, with
    None where the conversion raises.
- **Frame contents.** The human-readable `message` texts, the frames'
  wall-clock `timestamp` fields and the `%H:%M:%S` and ISO renderings of
  `created_at` are not modelled.
- **Failures caused by missing names.** Several imports name things that
  the imported modules do not define. The model describes the code as if
  every name resolved:
  - stock/backend/services/scheduler_service.py:6 imports
    `get_cached_stock_data` and `register_symbol`, which
    stock/backend/services/stock_service.py does not define. Importing the
    scheduler module raises `ImportError`, so no member of
    `SchedulerService` can run as written.
  - stock/backend/services/db_service.py:2-3 imports `get_db_session`,
    which stock/backend/database/__init__.py does not export, and
    `StockPrice`, `StockCache` and `StockSymbol`, which
    stock/backend/models.py does not define. Importing the module raises,
    so no member of `DbService` can run as written.
  - stock/backend/services/crypto_service.py:3 imports `CryptoQuote`, which
    stock/backend/models.py does not define. This affects every member of
    `CryptoQuoteService`.
  - stock/backend/data_service.py:6 imports `CryptoQuote` from
    stock/backend/models.py, which defines only `StockQuote`. The
    directory stock/backend/models/ has no `__init__.py`, so the module
    file is the one that resolves. stock/backend/websocket_routes.py
    imports `DataService` from that module at line 5, and again at line
    552. Importing the routes module therefore raises `ImportError` at line
    5. Neither copy of its definitions runs, so no member of
    `WebsocketRoutes` can run as written.
  - stock/backend/api/stock.py:6 imports `run_ws` from
    stock/backend/services/stock_service.py, which does not define it. The
    only `run_ws` is in backend/services/stock_service.py:12, in the other
    backend. Importing the module that registers its `/ws/stocks` endpoint
    raises `ImportError`, so `StockStream.StockEndpoint.Connect`,
    `StockStream.StockEndpoint.EndSession` and `StockStream.OneReaderPerSymbol`
    describe code that cannot run as written. stock/backend/main.py:3
    imports that module, so that application does not start as written.

  The remaining names sit inside function bodies of the routes module and
  of the market handler. The routes module cannot be imported at all (see
  above), so the entries for it describe its functions under the model's
  assumption that the module imports:
  - stock/backend/websocket_routes.py:574-575 imports `CryptoQuote` from
    stock/backend/models.py and `TOP_10_CRYPTOS` from the stock service.
    Neither exists. If the module imported, the database sender would
    always take its `except` path to the cache sender. The model takes this
    as the `dbRaises` input of `WebsocketRoutes.MarketDataFromDb` and
    `WebsocketRoutes.SendMarketDataFromDb`. It also reaches
    `WebsocketRoutes.MainSession` and `WebsocketRoutes.BroadcastRound`.
  - stock/backend/websocket_routes.py:717 imports `get_cached_stock_data`,
    `get_cached_crypto_data` and `TOP_10_CRYPTOS`, none of which exist. If
    the module imported, the cache sender would always raise, which is the
    `cacheRaises` input. `WebsocketRoutes.CachedFrame`,
    `WebsocketRoutes.CollectCachedItems` and
    `WebsocketRoutes.SendCachedMarketData` would then never send their
    frame.
  - stock/backend/websocket_routes.py:979 imports `CryptoQuote` from
    stock/backend/models.py. If the module imported, the `/ws/crypto`
    session would register the connection and then raise before its first
    frame. `WebsocketRoutes.CryptoSession` would yield no frame whatever the
    stores hold.
  - stock/backend/websocket/handlers/market_handler.py:54 imports
    `TOP_10_CRYPTOS` from the stock service, which does not define it. This
    is the `raises` input of `MarketHandler.HandlerFrame` and of the
    `MarketHandler.MarketDataHandler` senders.
  - stock/backend/websocket_routes.py:894 imports `get_crypto_statistics`.
    It belongs to the statistics endpoint, which is not modelled.
- **Other endpoints and helpers.** The status endpoints, `ping`,
  `cleanup_stale_connections`, `get_connection_info` and
  `get_connection_count` are not modelled. Neither are the stats
  comprehensions of the routes module, apart from the crypto volume filter.
- **The first copy of the routes module.** Only the second copy of
  stock/backend/websocket_routes.py (from line 548) is modelled. As
  written, the module stops at its line-5 import and defines neither copy
  (see above). If its imports resolved, Python would execute the second
  copy last, and it would replace the first.
- **Authentication.** Token decoding is an abstract partial map from tokens
  to user ids. JWT, cookies and the `User` table are reduced to a token
  option and a set of ids.
- **In-place reversal.** The `reverse()` of a query result is modelled on
  values (`Reversed`), not as an in-place update of a list.
- **Handshake failures.** Failures of `accept()` are not modelled.
- MarketHandler.MarketDataHandler.SendInitialData: `send_latest_data` is not
  a separate member, because it only calls `send_initial_data`.
- SymbolStream.UpperChar: only ASCII letters are upper-cased. Python's
  `str.upper()` also maps non-ASCII letters.
- CryptoQuoteService.IntOf: `int()` is modelled on plain digit strings
  only. Python's acceptance of surrounding whitespace, a sign and
  underscores is not modelled, and neither is a float `t`.
- CryptoQuoteService.RowOf: the quote values have no float variant
  (`PyValue` is a string, an integer or None). A numeric `p` or `v` is
  stored as `str()` of the number, so a float one, such as 0.5 stored as
  "0.5", is written as the `Str` of that text.
- AutoCollector.StockAutoCollector.GetStatus: the success rate is stated
  before `round(..., 2)`.
- SchedulerService.StockDataScheduler.GetStatus: the success rate is stated
  as an exact ratio, not as a float.

## Behaviour of the code worth knowing

The model follows the code in each of these cases.

- **Mock quote.** When a fetch fails and nothing is cached, the code
  fabricates a fixed mock quote (price "150.00"), caches it and returns it.
  The comment at stock/backend/services/finnhub_service.py:96 calls this a
  temporary measure. Because the mock is cached, it is then served as
  fresh for 60 seconds (`FinnhubService.FabricatedQuoteServedAsFresh`).
- **Failed sends to symbol subscribers.** The symbol-tagged client list
  (stock/backend/utils/ws_manager.py) swallows a failed send and keeps the
  client registered. The other client list (backend/utils/ws_manager.py)
  drops a client whose send fails.
- **Sessions that never unregister.**
  - `/ws/main`: the receive loop ends normally when the client leaves, so
    its disconnect handler never runs. The connection stays registered
    until a failed send drops it.
  - `/ws/stocks` and `/ws/crypto`: the sessions never unregister the
    connection themselves.
- **A failed relay in the chat and echo endpoints.** In
  stock/backend/api/chat.py:17-23, backend/api/chat.py:14-20 and
  fastapi_app/src/main.py:35-41 a raising send ends the *sender's* loop.
  If it raises `WebSocketDisconnect`, the handler removes the sender, not
  the connection whose send failed. Any other exception escapes the
  endpoint and removes nobody. Either way the dead connection stays
  listed, so every later relay from any member raises at it again
  (`ChatRooms.ChatRoomRegistry.Session`, `ChatClients.ChatClientList.Session`,
  `EchoApp.ConnectionList.Session`, `ChatRooms.DeadMemberStranded`,
  `Common.FailingMemberCutsRelay`).
- **The market handler's broadcast.** Its own `except`, which would
  disconnect, cannot be reached: the manager's `send_personal_message`
  swallows every failure and disconnects there. The per-symbol handlers'
  loops likewise go on after a failed send, and each further failure
  disconnects again.
- **Wait after an auto-collector round.** It is always 60 seconds, so the
  overrun branch is unreachable.
- **`last_api_call`.** A new statistics record sets it to the current time
  even for a cache hit: both arms of the conditional at
  stock/backend/services/db_service.py:100 give the current time.
