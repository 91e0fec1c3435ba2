# CryptoFlow realtime core in Dafny

This project models the data core of CryptoFlow, a market dashboard. The
core has three parts.

**The realtime manager** (class `RealtimeManager` in `src/api.ts`) does the following:
- It keeps two sets of subscribers: data callbacks and connection-state callbacks.
- It opens one Binance ticker stream for the current symbol list while anyone
  is subscribed, and tears the stream down when the last subscriber leaves.
- It broadcasts its connection state (`disconnected`, `connecting`, `connected`),
  but only when that state changes.
- It reconnects with capped exponential backoff and jitter.
- It coalesces ticker messages into a per-symbol last-write-wins buffer, which a
  single-shot timer flushes to every data subscriber.

**The app store's list logic** (`src/store.tsx`) covers:
- the sort toggle and the watchlist toggle;
- the search and watchlist filter;
- watched-first sorting;
- the watched-coin lookup and the stats counters;
- the index rebuild when a coin list arrives;
- the realtime handler that patches one row.

**The sort-key selector** is `getSortValue` in `src/utils.ts`.

Small pure helpers of `src/api.ts` are modelled as well:
- the cache freshness rule;
- the history-range table and its cache lifetime;
- the USDT pair filter and suffix strip.

Modules:

- `Common`: the insertion-ordered set of JavaScript `Set`, kept as a sequence
  without duplicates.
- `Text`: the JavaScript string operations the code calls: `toLowerCase`,
  `toUpperCase`, `trim`, `includes`, `replace` with a string pattern, `join`.
  `Split` is there only to prove facts about `join`.
- `ApiHelpers`: `getCache`/`setCache`, the `getHistory` tiers, the USDT filter
  and strip.
- `RealtimeSpec`: the manager as a state machine on values. `Manager` holds
  every field together with two logs:
  - `stateLog` records every state-callback invocation;
  - `dataLog` records every data-callback invocation as (subscriber, symbol, data).

  There is one transition function per method and one per asynchronous
  resumption: socket open, message, close and error, plus the reconnect timer,
  the flush timer and the heartbeat tick. Each one keeps the invariant `Valid`.
- `RealtimeProperties`: the lemmas about those transitions.
- `Realtime`: the class `RealtimeManager`, whose fields are the manager's fields.
  - Its `forEach` loops are `while` loops: `NotifyAll` for state broadcasts,
    `DeliverAll` for the flush, and the merge loop of `SetOpenPrices`.
  - Every method is proved to move the fields exactly as the matching
    `RealtimeSpec` function moves `Model()`.
- `Types`, `Utils`: the coin record, the sort configuration, and `getSortValue`.
- `StoreLists`: the store's derived lists as functions (`Filtered`, `Sorted`,
  `Watched`, `GetCoinById`), together with the index maps and their lemmas.
- `Store`: the class `AppStore`, holding the store's state, the coin list and
  both indexes. It has a method per action, the index-rebuild loop, the
  realtime patch, and the stats loop.

How the environment is represented:
- The WebSocket is a value `Socket(url, readyState, closeHandlerAttached)`.
  Every socket the manager has created is kept in `sockets`, and `ws` is the
  index of the current one. An old socket therefore keeps its handlers, and those
  handlers still act on the manager after it has moved to another socket.
- The calls that model the environment are the actions or inputs below; each is an event method or a parameter of one:
  - the browser firing `onopen`, `onmessage`, `onclose` and `onerror`;
  - timers expiring;
  - the WebSocket constructor throwing: `socketFails`;
  - `Math.random()`: `jitter`, in [0, 1);
  - `Date.now()`: `now`.
- The events' `requires` clauses state when a browser can fire them:
  - `onopen` fires once, on a connecting socket;
  - messages arrive only on an open socket;
  - close and error fire on a socket the model does not yet hold as CLOSED.
    A browser sets `readyState` to CLOSED before it dispatches them; the model
    folds that step into `OnClose`, so `OnError` sees the socket before it.

## Model

| member | source | states |
|---|---|---|
| Common.SetAdd | src/api.ts:86 | `Set.add`: membership becomes old members plus the new one, the set stays duplicate-free, a present element changes nothing, a new one goes last |
| Common.SetDelete | src/api.ts:89 | `Set.delete`: membership becomes old members minus the element, duplicate-freedom is kept, the set never grows, an absent element changes nothing |
| Common.AddThenDelete | src/api.ts:86-90 | subscribing a new callback and calling its unsubscribe function gives the original set back |
| Text.Lower | src/store.tsx:108 | `toLowerCase` maps each character to its lower-case form and keeps the length |
| Text.Upper | src/store.tsx:47 | `toUpperCase` maps each character to its upper-case form and keeps the length |
| Text.TrimStart | src/store.tsx:108 | the result is a suffix of the input, everything cut from the front is JavaScript whitespace, and the result does not start with whitespace |
| Text.TrimEnd | src/store.tsx:108 | the result is a prefix of the input, everything cut from the back is JavaScript whitespace, and the result does not end with whitespace |
| Text.Trim | src/store.tsx:108 | `trim` returns a slice `s[a..b]` of the input with only whitespace before `a` and after `b`, neither end of the result being whitespace; a string without whitespace comes back unchanged |
| Text.ContainsIff | src/store.tsx:115 | `includes(q)` holds exactly when `q` occurs at some position |
| Text.Find | src/api.ts:192 | the position `replace` acts on is the first occurrence of the pattern; no occurrence means none is found |
| Text.SplitJoin | src/api.ts:108 | a list joined with a separator none of its elements contains splits back into the same list |
| Text.JoinInjective | src/api.ts:108 | for non-empty lists whose elements contain no separator, equal joins mean equal lists, and conversely |
| ApiHelpers.GetCache | src/api.ts:14-17 | a cached value is returned exactly when the key is present and `now - ts < ttl`, and it is the stored data |
| ApiHelpers.CacheRoundTrip | src/api.ts:14-19 | a value just stored is returned for exactly `ttl` ms after storing, and other keys are unaffected |
| ApiHelpers.FreshnessIsMonotone | src/api.ts:16 | an entry fresh at some time was fresh at every earlier time |
| ApiHelpers.HistoryTtl | src/api.ts:443 | the history cache has only two lifetimes, and the short one is used exactly for ranges of at most one day |
| ApiHelpers.HistoryTtlBelowCandle | src/api.ts:443-447 | a cached history response expires before one candle of its tier has passed (1 min against 5 min, 5 min against at least 1 h), and the lifetime never shrinks as the range grows |
| ApiHelpers.HistoryRangeCoversRequest | src/api.ts:447 | each (interval, limit) tier spans exactly 1, 7, 30, 90 or 365 days, so every request up to a year is covered, limit at most 365 |
| ApiHelpers.FirstQuoteAtSeam | src/api.ts:339 | in `base + "USDT"` with no "USDT" in `base`, the first "USDT" starts right after `base` |
| ApiHelpers.BaseSymbolRoundTrip | src/api.ts:335-339 | stripping the first "USDT" from `base + "USDT"` gives `base`, and the pair is listed exactly when `base` is not excluded |
| ApiHelpers.BaseSymbolStripsFirstOnly | src/api.ts:192 | `replace('USDT', '')` removes only the first occurrence: "XUSDTUSDT" becomes "XUSDT" |
| RealtimeSpec.Init | src/api.ts:68-79 | a new manager is valid, disconnected and has no socket |
| RealtimeSpec.StreamNames | src/api.ts:166 | the stream list has min(100, number of symbols) entries, entry i being lower-cased symbol i followed by "usdt@ticker" |
| RealtimeSpec.StreamPathRoundTrip | src/api.ts:166-169 | the URL path after the endpoint splits on "/" back into exactly those stream names when no symbol contains "/" |
| RealtimeSpec.BackoffSchedule | src/api.ts:224 | the base delay doubles per attempt up to the cap, stays within [1000, 30000], and is 30000 from the fifth attempt |
| RealtimeSpec.BackoffMonotone | src/api.ts:224 | the base delay never decreases with the attempt count |
| RealtimeSpec.ReconnectDelayBounds | src/api.ts:224 | the jittered delay lies in [0.75, 1.25) times the base delay |
| RealtimeSpec.PercentChangeRoundTrip | src/api.ts:198 | for a non-zero baseline, applying the computed percentage to the baseline gives the price back |
| RealtimeSpec.Deliveries | src/api.ts:242-244 | a flush of the buffer produces one delivery per (buffered symbol, subscriber) pair |
| RealtimeSpec.NoticesExactlyOnce | src/api.ts:139 | a state broadcast notifies each subscriber exactly once with the new state, and no one else |
| RealtimeSpec.FanOutExactlyOnce | src/api.ts:243 | one buffered entry reaches each data subscriber exactly once |
| RealtimeSpec.DeliveriesExactlyOnce | src/api.ts:242-244 | a flush hands each subscriber each buffered symbol's value exactly once and nothing else |
| RealtimeSpec.SetState | src/api.ts:136-141 | keeps the invariant and changes only the state and the state log |
| RealtimeSpec.ClearTimers | src/api.ts:143-147 | keeps the invariant |
| RealtimeSpec.CloseSocket | src/api.ts:153 | `close()` keeps the invariant |
| RealtimeSpec.Disconnect | src/api.ts:149-157 | keeps the invariant, symbols, open prices, both subscriber sets, the buffer and the data log |
| RealtimeSpec.ScheduleReconnect | src/api.ts:222-230 | keeps the invariant |
| RealtimeSpec.Connect | src/api.ts:159-220 | keeps the invariant, symbols, open prices, subscribers, the buffer and the data log |
| RealtimeSpec.EnsureConnected | src/api.ts:124-128 | keeps the invariant |
| RealtimeSpec.CheckDisconnect | src/api.ts:130-134 | keeps the invariant |
| RealtimeSpec.BufferSet | src/api.ts:205 | `updateBuffer.set` keeps the invariant: buffer order and buffer keys stay the same set, without duplicates |
| RealtimeSpec.ScheduleFlush | src/api.ts:232-238 | keeps the invariant |
| RealtimeSpec.Flush | src/api.ts:240-246 | keeps the invariant |
| RealtimeSpec.Subscribe | src/api.ts:85-87 | keeps the invariant |
| RealtimeSpec.UnsubscribeData | src/api.ts:88-91 | keeps the invariant |
| RealtimeSpec.SubscribeState | src/api.ts:94-96 | keeps the invariant |
| RealtimeSpec.UnsubscribeState | src/api.ts:97-100 | keeps the invariant |
| RealtimeSpec.SetOpenPrices | src/api.ts:103-105 | keeps the invariant |
| RealtimeSpec.SetSymbols | src/api.ts:107-116 | keeps the invariant |
| RealtimeSpec.Reconnect | src/api.ts:118-122 | keeps the invariant |
| RealtimeSpec.OnOpen | src/api.ts:175-184 | keeps the invariant |
| RealtimeSpec.OnMessage | src/api.ts:186-208 | keeps the invariant |
| RealtimeSpec.OnClose | src/api.ts:210-217 | keeps the invariant |
| RealtimeSpec.OnError | src/api.ts:219 | keeps the invariant |
| RealtimeSpec.ReconnectTimerFires | src/api.ts:226-229 | keeps the invariant |
| RealtimeSpec.FlushTimerFires | src/api.ts:234-237 | keeps the invariant |
| RealtimeSpec.HeartbeatTick | src/api.ts:179-183 | keeps the invariant |
| RealtimeProperties.SetStateNotifiesOnChange | src/api.ts:136-141 | the new state is set. The same state changes nothing. A different state appends one notice per state subscriber (each exactly once) and changes nothing else. Setting the same state twice is the same as once |
| RealtimeProperties.SubscribeStateNotifiesCurrentState | src/api.ts:94-96 | `subscribeState` adds the callback and invokes it once with the current state, changing nothing else |
| RealtimeProperties.SubscribeConnectsOnDemand | src/api.ts:85-128 | `subscribe` adds the callback and calls `ensureConnected`. It changes nothing else when the socket is live or there are no symbols. Otherwise it starts connecting: a new socket, or a scheduled reconnect when the constructor throws |
| RealtimeProperties.DisconnectTearsDown | src/api.ts:149-157 | `disconnect` clears all three timers, detaches and closes the current socket, forgets it, and reports `disconnected`. It keeps the subscribers, symbols, open prices and buffer, and no other socket changes |
| RealtimeProperties.UnsubscribeDataRemovesOnly | src/api.ts:88-91 | data unsubscribe removes only that callback and calls `checkDisconnect`. With subscribers left nothing else changes. With none left the manager is torn down |
| RealtimeProperties.UnsubscribeStateRemovesOnly | src/api.ts:97-100 | state unsubscribe removes only that callback and calls `checkDisconnect`. With subscribers left nothing else changes. With none left the manager is torn down |
| RealtimeProperties.StateSubscriberKeepsConnection | src/api.ts:130-134 | with a state subscriber registered, removing data subscribers removes them and touches nothing else |
| RealtimeProperties.SubscribeThenUnsubscribeDisconnects | src/api.ts:85-91 | on an idle manager, subscribe then unsubscribe leaves no socket, no timer, and the state `disconnected` |
| RealtimeProperties.ConnectGuards | src/api.ts:160-161 | `connect` changes nothing when the socket is OPEN or CONNECTING or the symbol list is empty |
| RealtimeProperties.ConnectOpensStream | src/api.ts:159-169 | otherwise it clears the timers, reports `connecting`, and opens a socket at the endpoint plus the "/"-joined stream list of the first min(100, n) symbols |
| RealtimeProperties.ConnectFailureSchedulesReconnect | src/api.ts:168-173 | when the constructor throws, the state stays `connecting`, and a reconnect is scheduled with the backoff delay and the attempt count incremented |
| RealtimeProperties.ConnectProceedsWhileClosing | src/api.ts:160 | a current socket that is CLOSING does not block `connect`; the closing socket keeps its close handler |
| RealtimeProperties.OnOpenConnects | src/api.ts:175-184 | on open the state is `connected`, attempts are 0, the heartbeat runs, the message clock is `now`, the current socket stays, and an interval already held is counted as leaked |
| RealtimeProperties.OnCloseReconnectsIffDemand | src/api.ts:210-217 | if a socket's close handler is attached, closing it forgets the socket, clears the heartbeat and flush timers, reports `disconnected`, and keeps the buffer and open prices. A reconnect is scheduled, with the backoff delay and one more attempt, exactly when a subscriber remains. A detached socket changes nothing but its own state |
| RealtimeProperties.OnErrorClosesCurrentSocket | src/api.ts:219 | the error handler of any socket closes the current socket, whichever socket raised the error |
| RealtimeProperties.StaleErrorClosesReplacement | src/api.ts:219 | after a symbol change replaces a connecting socket, an error on the old socket closes the new one |
| RealtimeProperties.HeartbeatClosesOnlyStale | src/api.ts:179-183 | a heartbeat tick changes something exactly when the current socket is OPEN and silent for more than 10000 ms, and then only closes it |
| RealtimeProperties.SetSymbolsWithDemandReconnects | src/api.ts:107-116 | a changed symbol list with subscribers is the same as storing it and then calling `reconnect` |
| RealtimeProperties.ReconnectOpensStream | src/api.ts:118-122 | `reconnect` resets attempts, closes the old socket with its handler detached, and opens a socket for the symbols |
| RealtimeProperties.ScheduleReconnectAtMostOne | src/api.ts:222-230 | a pending reconnect makes scheduling a no-op. Otherwise it sets the timer with a delay in [0.75, 1.25) times min(1000·2^attempts, 30000) and increments the attempts. Scheduling is idempotent |
| RealtimeProperties.ReconnectResetsAttempts | src/api.ts:119 | after `reconnect` the attempts are 0, or 1 when the new socket could not be built; the state is `connecting` when there are symbols |
| RealtimeProperties.ReconnectTimerReconnects | src/api.ts:226-229 | the reconnect timer clears itself and opens a new socket |
| RealtimeProperties.SetSymbolsSameJoinIsNoOp | src/api.ts:108 | equal comma-joined strings make `setSymbols` a no-op |
| RealtimeProperties.SetSymbolsComparesJoinedStrings | src/api.ts:108 | ["A,B"] is taken for ["A","B"], and [""] for [] |
| RealtimeProperties.SetSymbolsTakesDifferentList | src/api.ts:108-109 | a different non-empty list of comma-free symbols replaces the current one |
| RealtimeProperties.SetSymbolsWithoutDemand | src/api.ts:107-116 | without subscribers a changed list is only stored |
| RealtimeProperties.SetSymbolsRestartsStream | src/api.ts:107-116 | with subscribers a changed list resets attempts, closes the old socket with its handler detached, and opens a socket for the new list |
| RealtimeProperties.SetOpenPricesMerges | src/api.ts:103-105 | keys of the argument take its values, other keys keep theirs, nothing else changes |
| RealtimeProperties.OnMessageIgnoresOtherEvents | src/api.ts:186-190 | every message sets `lastMessage`; a malformed or non-ticker one changes nothing else |
| RealtimeProperties.OnMessageBuffersTicker | src/api.ts:191-206 | a ticker is buffered under `s` without its first "USDT", against the stored open price or else the payload's `o`. A new symbol goes last; an existing one keeps its place and gets the new value. A flush is pending, and nothing else changes |
| RealtimeProperties.TickersCoalesce | src/api.ts:205 | a second ticker for the same symbol gives the same state as if the first were never buffered (last write wins) |
| RealtimeProperties.FlushEmptyDeliversNothing | src/api.ts:241 | a flush of an empty buffer delivers nothing |
| RealtimeProperties.FlushDeliversEachOnce | src/api.ts:234-246 | a flush appends to the data log exactly one delivery per (data subscriber, buffered entry), empties the buffer and clears the timer |
| RealtimeProperties.TimersLeaveBufferAlone | src/api.ts:143-157 | `clearTimers` and `disconnect` keep the buffer and the open prices |
| RealtimeProperties.TickerReachesSubscriber | src/api.ts:186-246 | a "<base>USDT" ticker reaches the single subscriber at the next flush as one delivery for `base`, with the change against the stored open price |
| Realtime.NotifyAll | src/api.ts:139 | the loop produces exactly the notices of the broadcast, in subscription order |
| Realtime.DeliverAll | src/api.ts:242-244 | the nested loops produce exactly the deliveries of the flush, in buffer order and then subscription order |
| Realtime.RealtimeManager.constructor | src/api.ts:68-79 | the fields start as `RealtimeSpec.Init` |
| Realtime.RealtimeManager.Subscribe | src/api.ts:85-87 | follows `RealtimeSpec.Subscribe` and keeps the invariant |
| Realtime.RealtimeManager.UnsubscribeData | src/api.ts:88-91 | follows `RealtimeSpec.UnsubscribeData` and keeps the invariant |
| Realtime.RealtimeManager.SubscribeState | src/api.ts:94-96 | follows `RealtimeSpec.SubscribeState` and keeps the invariant |
| Realtime.RealtimeManager.UnsubscribeState | src/api.ts:97-100 | follows `RealtimeSpec.UnsubscribeState` and keeps the invariant |
| Realtime.RealtimeManager.SetOpenPrices | src/api.ts:103-105 | the `forEach` merge loop follows `RealtimeSpec.SetOpenPrices` |
| Realtime.RealtimeManager.SetSymbols | src/api.ts:107-116 | follows `RealtimeSpec.SetSymbols` |
| Realtime.RealtimeManager.Reconnect | src/api.ts:118-122 | follows `RealtimeSpec.Reconnect` |
| Realtime.RealtimeManager.IsSocketLive | src/api.ts:125 | tells whether the current socket is OPEN or CONNECTING, changing nothing |
| Realtime.RealtimeManager.EnsureConnected | src/api.ts:124-128 | follows `RealtimeSpec.EnsureConnected` |
| Realtime.RealtimeManager.CheckDisconnect | src/api.ts:130-134 | follows `RealtimeSpec.CheckDisconnect` |
| Realtime.RealtimeManager.SetState | src/api.ts:136-141 | follows `RealtimeSpec.SetState`, broadcasting through `NotifyAll` |
| Realtime.RealtimeManager.ClearTimers | src/api.ts:143-147 | follows `RealtimeSpec.ClearTimers` |
| Realtime.RealtimeManager.CloseSocket | src/api.ts:153 | follows `RealtimeSpec.CloseSocket` |
| Realtime.RealtimeManager.Disconnect | src/api.ts:149-157 | follows `RealtimeSpec.Disconnect` |
| Realtime.RealtimeManager.ScheduleReconnect | src/api.ts:222-230 | follows `RealtimeSpec.ScheduleReconnect` |
| Realtime.RealtimeManager.Connect | src/api.ts:159-220 | follows `RealtimeSpec.Connect` |
| Realtime.RealtimeManager.ScheduleFlush | src/api.ts:232-238 | follows `RealtimeSpec.ScheduleFlush` |
| Realtime.RealtimeManager.Flush | src/api.ts:240-246 | follows `RealtimeSpec.Flush`, delivering through `DeliverAll` |
| Realtime.RealtimeManager.EmptyBuffer | src/api.ts:242-245 | the flush's deliveries are appended to the data log and the buffer is emptied; nothing else changes |
| Realtime.RealtimeManager.OnOpen | src/api.ts:175-184 | follows `RealtimeSpec.OnOpen` |
| Realtime.RealtimeManager.MarkSocket | src/api.ts:175 | only the given socket's `readyState` changes; the invariant is kept |
| Realtime.RealtimeManager.MarkOpened | src/api.ts:177-183 | the attempts are reset, the message clock is set, the heartbeat runs and an interval already held is counted as leaked; nothing else changes |
| Realtime.RealtimeManager.OnMessage | src/api.ts:186-208 | follows `RealtimeSpec.OnMessage` |
| Realtime.RealtimeManager.BufferSet | src/api.ts:205 | follows `RealtimeSpec.BufferSet` |
| Realtime.RealtimeManager.OnClose | src/api.ts:210-217 | follows `RealtimeSpec.OnClose` |
| Realtime.RealtimeManager.OnError | src/api.ts:219 | follows `RealtimeSpec.OnError` |
| Realtime.RealtimeManager.ReconnectTimerFires | src/api.ts:226-229 | follows `RealtimeSpec.ReconnectTimerFires` |
| Realtime.RealtimeManager.FlushTimerFires | src/api.ts:234-237 | follows `RealtimeSpec.FlushTimerFires` |
| Realtime.RealtimeManager.HeartbeatTick | src/api.ts:179-183 | follows `RealtimeSpec.HeartbeatTick` |
| Utils.SortValueSelectsColumn | src/utils.ts:30-37 | "price", "change_24h" and "volume" select their own columns; "market_cap" and every other name select the market cap |
| StoreLists.NextSort | src/store.tsx:91-96 | the sort field becomes the clicked one. The same field flips the direction; another field starts descending |
| StoreLists.NextSortRoundTrip | src/store.tsx:91-96 | clicking the same field twice restores the sort, and going back from another field gives that field descending |
| StoreLists.FirstIndex | src/store.tsx:100 | `indexOf` finds the first position of the id, or nothing when it is absent |
| StoreLists.ToggledCounts | src/store.tsx:98-103 | toggling removes one occurrence of a present id, or adds one of an absent id, and keeps every other id's count |
| StoreLists.ToggledMembership | src/store.tsx:98-103 | on a duplicate-free watchlist, toggling flips the id's membership and keeps every other id's |
| StoreLists.ToggledNoDup | src/store.tsx:98-103 | a duplicate-free watchlist stays duplicate-free |
| StoreLists.ToggleTwiceRestores | src/store.tsx:98-103 | toggling an absent id twice gives the original list back |
| StoreLists.FilterCoins | src/store.tsx:114-118 | the filter result is never longer than the list |
| StoreLists.FilterCoinsCounts | src/store.tsx:114-118 | every occurrence of a matching coin is kept and every other coin is dropped |
| StoreLists.FilterCoinsKeepsAll | src/store.tsx:114-118 | when every coin matches, the filter returns the list itself |
| StoreLists.FilteredIsFilter | src/store.tsx:106-119 | the fast path with an empty query and no watchlist filter agrees with filtering. The result keeps exactly the coins whose lower-case name or symbol contains the trimmed lower-cased query and, with the filter on, whose id is watched |
| StoreLists.FilterCoinsKeepsOrder | src/store.tsx:114 | the filtered coins keep their list order |
| StoreLists.CompareMeaning | src/store.tsx:128-134 | the comparator puts a before b exactly when a is watched and b is not, or both are in the same group and a's key is not past b's in the chosen direction |
| StoreLists.InOrderTotalPreorder | src/store.tsx:128-134 | the comparator is total and transitive, so it is a valid sort order |
| StoreLists.Insert | src/store.tsx:128 | inserting adds exactly the one coin |
| StoreLists.SortCoins | src/store.tsx:128 | sorting is a permutation |
| StoreLists.InsertOrdered | src/store.tsx:128 | inserting into an ordered list keeps it ordered |
| StoreLists.SortCoinsOrdered | src/store.tsx:128 | the sort result is ordered |
| StoreLists.SortedProperties | src/store.tsx:122-135 | `sorted` is a permutation of `filtered`: watched coins come before unwatched ones, and within a group the key does not decrease for asc and does not increase for desc |
| StoreLists.GetCoinById | src/store.tsx:167-170 | a coin is found exactly when the id is indexed at a position inside the list, and it is the row at that position |
| StoreLists.Watched | src/store.tsx:138-146 | `watched` is no longer than the watchlist |
| StoreLists.WatchedResolvesEachId | src/store.tsx:143-145 | when every watched id resolves, `watched` is the resolved coins in watchlist order |
| StoreLists.WatchedComesFromWatchlist | src/store.tsx:143-145 | every coin in `watched` is what some watched id resolves to |
| StoreLists.WatchedContainsResolved | src/store.tsx:143-145 | every watched id that resolves puts its coin in `watched`, whether or not the other ids resolve |
| StoreLists.WatchedIsResolvedCoins | src/store.tsx:138-146 | a coin is in `watched` exactly when some watched id resolves to it |
| StoreLists.GainersLosersPartition | src/store.tsx:151-156 | gainers, losers and unchanged coins partition the list, so gainers plus losers is at most the total |
| StoreLists.Ids | src/store.tsx:46 | the key sequence holds each row's id at its position |
| StoreLists.SymbolKeys | src/store.tsx:47 | the key sequence holds each row's upper-cased symbol at its position |
| StoreLists.IndexOfLastWins | src/store.tsx:45-48 | the index holds exactly the keys, each mapped to its last position |
| StoreLists.FreshIndexFindsOwnRow | src/store.tsx:41-55 | with the index rebuilt from the list, an id resolves exactly when some row has it, and to a row with that id |
| StoreLists.MergedIndexMisresolvesStaleId | src/store.tsx:50-53 | the index merged into the previous one resolves an id that has left the list to another coin (see Findings) |
| StoreLists.MergedIndexFindsCurrentIds | src/store.tsx:52 | the merged index still maps every id of the new list to its last row, so such ids resolve to a row with that id |
| StoreLists.Patched | src/store.tsx:66-72 | the realtime patch keeps id, symbol, name, image, market cap, rank and sparkline |
| StoreLists.PatchedSortKeys | src/store.tsx:66-72 | after a patch, the price, change and volume keys are the ticker's and the market-cap key is unchanged; of two patches the last wins |
| Store.RebuiltIndexesResolve | src/store.tsx:41-55 | after a rebuild from a list, every row's id resolves through the merged id index to a row with that id, and every symbol entry names a row with that upper-cased symbol |
| Store.BuildIndex | src/store.tsx:45-48 | the `forEach` loop builds exactly the last-position index of the keys |
| Store.AppStore.constructor | src/store.tsx:24-34 | the store starts with an empty search and the watchlist filter off. The saved sort and watchlist are used when present, otherwise market cap descending and ["bitcoin", "ethereum"]. The list and indexes start empty |
| Store.AppStore.SetSearch | src/store.tsx:86 | sets the search and nothing else |
| Store.AppStore.ClearSearch | src/store.tsx:87 | empties the search and nothing else |
| Store.AppStore.ToggleWatchlistOnly | src/store.tsx:88 | flips the watchlist filter and nothing else |
| Store.AppStore.SetWatchlistOnly | src/store.tsx:89 | sets the watchlist filter and nothing else |
| Store.AppStore.SetSort | src/store.tsx:91-96 | sets the sort to `NextSort` of the old one and nothing else |
| Store.AppStore.ToggleWatch | src/store.tsx:98-103 | sets the watchlist to its toggle and nothing else |
| Store.AppStore.RebuildIndex | src/store.tsx:41-55 | an empty list changes nothing. Otherwise the list is replaced and the symbol index is rebuilt from it, later rows winning; the new id index is merged into the previous one. Afterwards every current row's id resolves to a row with that id, and every symbol entry points at a row with that upper-cased symbol |
| Store.AppStore.ApplyRealtime | src/store.tsx:63-74 | an unknown symbol changes nothing; a known one patches exactly the five market fields of its row, and no other row or field changes |
| Store.AppStore.CoinById | src/store.tsx:167-170 | `getCoinById` is the bounds-checked index lookup. Whatever it finds is a current row, and the id of a current row always finds a row with that id |
| Store.AppStore.Stats | src/store.tsx:149-165 | the counting loop gives the list length, the filtered length, the watchlist length, and the gainer and loser counts, with gainers plus losers at most the total |

Functions without a contract of their own are described by the lemmas
about them:
- `Utils.SortValue`: `Utils.SortValueSelectsColumn`.
- `StoreLists.Toggled`: `StoreLists.ToggledCounts`, `StoreLists.ToggledMembership`, `StoreLists.ToggledNoDup` and `StoreLists.ToggleTwiceRestores`.
- `StoreLists.Query`, `StoreLists.Matches`, `StoreLists.Filtered`:
  `StoreLists.FilteredIsFilter`.
- `StoreLists.Compare`: `StoreLists.CompareMeaning` and `StoreLists.InOrderTotalPreorder`.
- `StoreLists.IndexOf`: `StoreLists.IndexOfLastWins`.
- `StoreLists.MergedIndex`: `StoreLists.MergedIndexFindsCurrentIds` and
  `StoreLists.MergedIndexMisresolvesStaleId`.
- `StoreLists.Gainers`, `StoreLists.Losers`: `StoreLists.GainersLosersPartition`.
- `ApiHelpers.SetCache`: `ApiHelpers.CacheRoundTrip`.
- `ApiHelpers.BaseSymbol`, `ApiHelpers.IsListedPair`:
  `ApiHelpers.BaseSymbolRoundTrip` and `ApiHelpers.BaseSymbolStripsFirstOnly`.
- `ApiHelpers.HistoryRangeFor`: `ApiHelpers.HistoryRangeCoversRequest` and
  `ApiHelpers.HistoryTtlBelowCandle`.
- `RealtimeSpec.Url`: `RealtimeSpec.StreamPathRoundTrip`.
- `RealtimeSpec.ReconnectDelay`: `RealtimeSpec.ReconnectDelayBounds`.
- `RealtimeSpec.PercentChange`: `RealtimeSpec.PercentChangeRoundTrip`.
- `RealtimeSpec.TickerData`: `RealtimeProperties.OnMessageBuffersTicker`.
- `Text.ReplaceFirst`: `ApiHelpers.BaseSymbolRoundTrip`, with `Text.Find`
  giving the position replaced.
- `Text.Join`: `Text.SplitJoin` and `Text.JoinInjective`.

## Where the description and the code differ

The model follows the code in every case below.

- `setSymbols` compares `syms.join()` and `symbols.join()` (`src/api.ts:108`),
  not the lists. Any symbol holding a comma can make two different lists look
  equal (`SetSymbolsComparesJoinedStrings`). Only comma-free symbol lists are
  compared as lists (`SetSymbolsTakesDifferentList`).
- `reconnect()` (`src/api.ts:118-122`) connects even when nobody is
  subscribed, so a connection can be opened without demand.
- The `onerror` handler of an old socket closes whatever socket is current
  (`src/api.ts:219`). An error from a socket that is already being replaced
  therefore closes its replacement (`StaleErrorClosesReplacement`).
- A second `onopen` while a heartbeat interval is held starts another interval
  without clearing the first (`src/api.ts:179`). The model counts the leaked
  intervals in `strayHeartbeats`; each of them still runs the heartbeat check.
- `parseFloat` never throws, so a ticker with an unparsable number is not
  discarded. Its value is NaN and is buffered like any other.
- The jitter factor is in [0.75, 1.25), because `Math.random()` never returns 1.

## Findings

| source | as written | input that shows it | evidently intended | confidence | as-written member | corrected member |
|---|---|---|---|---|---|---|
| src/store.tsx:50-53 | `setCoinsStore('byId', byId)` shallow-merges the new object into the previous `byId` of the Solid store, so ids of coins that left the list keep their old positions | coins [a, b] then coins [b]: `getCoinById("a")` returns coin b | `byId` indexes exactly the new list (`byId` replaced, as `reconcile` replaces the list), so every hit carries the id asked for | medium, not executed; depends on Solid's documented merge of plain objects | StoreLists.MergedIndexMisresolvesStaleId | StoreLists.FreshIndexFindsOwnRow |

`StoreLists.MergedIndex` is the index as written, and `Store.AppStore.RebuildIndex`
installs it as the code does. Its invariant (`Store.AppStore.Valid`) therefore
covers only the ids of current rows (`StoreLists.MergedIndexFindsCurrentIds`).
The corrected index is `IndexOf(Ids(list))`, a rebuild from the current list
alone; `StoreLists.FreshIndexFindsOwnRow` proves that with it every id that
resolves is found in a row carrying that id.

## Left out

- The WebSocket transport, `fetch` and JSON decoding are I/O. An inbound frame
  is an already-decoded `Message`, or `Malformed` when decoding or reading its
  fields throws.
- Floating point is modelled with `real`, so NaN, infinities and rounding are
  not represented. This includes NaN from `parseFloat`.
- RealtimeSpec.PercentChange: a zero baseline gives 0 rather than an infinite
  or NaN change, because `real` has neither.
- `Date.now()`, `Math.random()`, `setTimeout` and `setInterval` are not modelled directly:
  - time and randomness are parameters (`now`, `jitter`);
  - timers are pending flags with explicit fire events;
  - the intervals' lengths (100 ms flush, 30 s heartbeat) are not modelled as time.
- The manager's callbacks are recorded in `stateLog` and `dataLog`. They are
  not run, so a callback that re-enters the manager is not modelled.
- The REST functions (`getAllTickers`, `getCoins` beyond the pair filter,
  sparklines, `getCoin`, the order book, trades, prefetch) are left out. They
  are promise plumbing and float arithmetic around `fetch`.
- The `NAMES` table and the regex-based `toId` are left out, as static data and
  a regex library call.
- Solid reactivity is reduced to the data operations it wraps:
  - memos become functions of the fields;
  - `batch` and `reconcile` become plain updates;
  - the `load` fallback is an `Option` parameter of the store's constructor;
  - persistence to `localStorage` (`src/store.tsx:77-78`), the `isWatched`
    selector and `refetch` are left out.
- The UI components, pages and number formatting are left out.
- Text.Lower: only ASCII letters change case; `toLowerCase` also maps other
  Unicode letters.
- Text.Upper: only ASCII letters change case; `toUpperCase` also maps other
  Unicode letters.
- Store.AppStore.CoinById: for an id that is no longer in the list, it does
  not promise that the coin it finds carries that id. The code's merged id
  index can resolve such an id to another row (see Findings).
- StoreLists.SortCoins: `Array.prototype.sort` is modelled by an insertion sort
  under the same comparator. The model proves the result is an ordered
  permutation, but does not prove it is stable.
- Realtime.RealtimeManager: sockets are kept as values in a sequence, so the
  object identity of WebSocket instances is modelled only by the index.
