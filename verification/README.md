# Verified model of the oracle demo API

A Dafny model of the three parts of this service whose behaviour is hardest to see from
the code, with proofs about all their runs. `dafny verify dfyconfig.toml` checks it.

**The rate limiter** (`SlidingWindow`, `LimiterHistory`, `LimiterPromises`, `RedisLimiter`).
The Lua script is a transition on one sorted set; a run is any sequence of script calls over
any number of keys. Each call carries the stamp read in Go before the call, the Redis clock
when the script runs, and a flag that says whether Redis drops the key at that call if its
expiry time has been reached; leaving the flag free covers every expiry policy. The same
commands are also written as methods on a `Redis` object, proved equal to the transition, and
`Allow` and the middleware run on top of them. Results that need stamps in order assume
`Steady`: stamps never go back, and Redis drops a key only when, by the stamps, its accepted
calls are a window old; a single clock is enough for that. Results about arbitrary stamps say
so. Tokens are fresh, as the uuids make them.

**The fan-out hub** (`HubModel`, `HubInvariants`, `HubFanout`, `HubTheorems`, `HubShutdown`,
`HubLateClients`, `HubLifecycle`, `HubService`, `HubWitnesses`). The hub's methods interleave at
the level of single lock, channel and map operations, so they are modelled as a labelled
transition system rather than as methods: a step is one action of one goroutine (an upstream
loop, the caller of `Stop`, or the reading or writing goroutine of a connection), and the
theorems quantify over every interleaving. `mu` is a reader/writer lock in which a waiting writer blocks new readers,
`closeOnce` makes a second caller wait for the first, and client channels are bounded queues.
Histories of broadcasts, enqueued, taken and delivered frames are part of the state.

**The asset index and registry** (`Text`, `Assets`, `Registry`, `Handlers`). Two tables
precomputed from an arbitrary catalog agree with the linear scan, the aggregator cache is a
fold over pages and live events, and the asset list joins them faithfully. The hash is an
arbitrary function; where it matters, it separates the catalog's tickers.

Where comments or a natural reading promise more than the code does, the model follows the
code:

- the package comment of the limiter speaks of a fixed window; the script is a sliding log,
  which keeps the limit in every window, aligned or not (`LongRunThroughput`);
- `Retry-After` is rounded down, so waiting exactly that long may not be enough
  (`HeaderAloneCanFail`); `HeaderIsTight` says exactly when it is;
- `OnSend` counts enqueued frames, not delivered ones (`SentNotDelivered`);
  `SendsAreDeliveries` says exactly when the two agree;
- both upstream loops may count the drop of the same client (`DropCountedTwice`);
  each does exactly when its offer finds the channel full (`CountedIffFoundFull`), and
  `CountedAgainIffPending` says what that means for a client already closed;
- `Stop` does not close a client that registers after its snapshot (`LateClientStaysOpen`);
  `StopClosesExactlyRegistered` says exactly which it does;
- `ListEvents` is sorted newest first, so of two registrations of one asset on a page the
  load keeps the older (`OlderAddressWins`); `LoadKeepsOldest` says exactly when the newest
  address is shown all the same.

## Model

| member | source | states |
|---|---|---|
| RedisLimiter.Redis.ZRangeFirst | internal/ratelimit/redis.go:38-41 | a least score of the key, or nothing exactly when the key is empty |
| RedisLimiter.Redis.RetryAfter | internal/ratelimit/redis.go:38-44 | the time until the least score leaves the window, whichever member Redis lists first, with both fallbacks |
| RedisLimiter.Redis.RunScript | internal/ratelimit/redis.go:28-50 | the commands in sequence are the pure transition on the call's own key, with its reply, both fallbacks included |
| RedisLimiter.RedisLimiter.Allow | internal/ratelimit/redis.go:83-121 | an accept shows the room left, a reject none and a wait of at least a second; the keyspace changes by one script run; a failing call gives no decision, and has or has not run the script |
| RedisLimiter.CallIsFaithful | internal/ratelimit/redis.go:84-90 | different clients have different Redis keys, different requests different members; stamp, limit and window are those of the request and the limiter |
| RedisLimiter.ClientsAreIndependent | internal/ratelimit/redis.go:83-92 | for any sequence of requests with stamps in any order each reply is that of the client's own requests alone |
| RedisLimiter.TokensDiffer | internal/ratelimit/redis.go:85 | two sorted-set members are equal if and only if stamp and uuid are |
| RedisLimiter.DecimalRoundTrip | internal/ratelimit/redis.go:85 | the stamp in a member is its decimal numeral |
| RedisLimiter.TrimSlashes | internal/ratelimit/middleware.go:22 | the longest prefix of a path not ending in a slash |
| RedisLimiter.Middleware.constructor | internal/ratelimit/middleware.go:19-23 | the bypass set is exactly the set of trimmed bypass paths |
| RedisLimiter.Middleware.Handle | internal/ratelimit/middleware.go:26-63 | bypassed requests are forwarded without asking the limiter, failing ones are forwarded; an accept is forwarded with limit and room left, a reject is a 429 with the wait in whole seconds and is counted |
| RedisLimiter.RejectsExactlyOverLimit | internal/ratelimit/middleware.go:41-61 | with steady clocks a request is answered 429 if and only if the trailing window holds limit accepted requests or more, and otherwise shows the exact room left |
| RedisLimiter.HeaderInRange | internal/ratelimit/middleware.go:45-58 | every reject is a 429 with 1 to 60 seconds and nothing remaining |
| RedisLimiter.HeaderIsTight | internal/ratelimit/middleware.go:45-58 | one second more always suffices for a key with no other request; the exact header suffices if and only if the retry time is at most a second or a whole number of seconds |
| RedisLimiter.HeaderAloneCanFail | internal/ratelimit/middleware.go:51 | a run in which waiting exactly the header is rejected again |
| RedisLimiter.RemainingHeaderIsExact | internal/ratelimit/middleware.go:42-43 | an accepted call's remaining value is the number of further calls at the same stamp that are accepted, no more and no fewer |
| SlidingWindow.BucketStep | internal/ratelimit/redis.go:83-90 | in any run a call changes the bucket of its own key by one script run and no other bucket |
| LimiterHistory.TokensExact | internal/ratelimit/redis.go:35-49 | for arbitrary stamps and expiry the sorted set holds precisely the accepted calls that no later call on the key evicted or found expired |
| LimiterHistory.VerdictExact | internal/ratelimit/redis.go:35-49 | for arbitrary stamps and expiry a call is accepted if and only if fewer than limit such calls survive it |
| LimiterHistory.LapsedExact | internal/ratelimit/redis.go:48 | a call finds its key dropped if and only if a window has passed since the last accepted call and Redis has acted on it; rejects do not put this off |
| LimiterHistory.SteadyIfClocksAgree | internal/ratelimit/redis.go:84-90 | runs with ordered stamps are steady if no key expires or if a full window on the Redis clock is one by the stamps, as on a single clock |
| LimiterHistory.VerdictIsTrailingCount | internal/ratelimit/redis.go:13-16 | with steady clocks the verdict is whether the full history has fewer than limit accepted calls in the trailing window |
| LimiterHistory.VerdictByQueue | internal/ratelimit/redis.go:35-49 | counting the window is the same as asking whether the limit-th most recent accepted call is a full window old |
| LimiterPromises.GreedyOptimal | internal/ratelimit/redis.go:35-49 | the accepted calls keep any limit plus one of them a window apart, and on every prefix no other choice that does so is larger |
| LimiterPromises.LongRunThroughput | internal/ratelimit/redis.go:68-77 | any half-open interval of k windows has at most k times limit accepted calls per key, for every k |
| LimiterPromises.SkewSafety | internal/ratelimit/redis.go:84-90 | stamps in any order but within d of real time: no interval shorter than the window less twice d has more than limit accepted calls, expiry included |
| LimiterPromises.RejectedAreInvisible | internal/ratelimit/redis.go:37-45 | deleting any rejected calls and changing expiry leaves every other reply unchanged, count and retry time included |
| LimiterPromises.TtlIsInvisible | internal/ratelimit/redis.go:48 | for ordered stamps every reply equals that of the run without PEXPIRE if and only if no key is dropped while, by the stamps, an accepted call is in the window |
| LimiterPromises.KeysAreIndependent | internal/ratelimit/redis.go:83-92 | for arbitrary stamps each reply is that of the run restricted to the call's key |
| LimiterPromises.RetryValue | internal/ratelimit/redis.go:37-45 | a reject counts exactly limit tokens and reports the time until the oldest leaves the window, between 1 and the window |
| LimiterPromises.RetryIsExact | internal/ratelimit/redis.go:37-45 | every later call on the key before the retry time is rejected however many there are, and the first at or after it is accepted |
| LimiterPromises.NothingPasses | internal/ratelimit/redis.go:39 | with a limit below one every call is rejected with a full window as retry time, the only use of that fallback |
| LimiterPromises.NeverOverLimit | internal/ratelimit/redis.go:36-49 | the sorted set never holds more than limit tokens, for arbitrary stamps |
| LimiterPromises.RemainingIsExact | internal/ratelimit/redis.go:99-111 | after an accept with count n, a call at the same stamp is accepted if and only if fewer than limit less n calls on the key came between |
| HubFanout.InvKept | internal/wshub/hub.go:76-177 | every step of every thread keeps the locks, the once, the channels, the snapshots and all counters consistent, and every pump that left is closing its client or has |
| HubFanout.ReachableInv | internal/wshub/hub.go:76-177 | so every reachable state is consistent |
| HubFanout.CloseEndsOut | internal/wshub/client.go:113-121 | a call of close returns only when the client's once is done and the client out of the map |
| HubTheorems.BroadcastsAreMessages | internal/wshub/hub.go:192-231 | over any run a loop's broadcasts, with the message it holds, are what its upstream handed over, whole, once each and in order |
| HubTheorems.GaplessDelivery | internal/wshub/hub.go:153-177 | over any run what a loop enqueued to a client is a contiguous segment of the messages it received, one frame each, and what the client was sent is a prefix of what was enqueued |
| HubTheorems.GaplessFromRegistration | internal/wshub/hub.go:134-177 | in every continuation from a registration that segment starts at the first message not yet fanned out at that moment, and reaches the last one fanned out while the client is registered and the loop between broadcasts |
| HubTheorems.DropAccounting | internal/wshub/hub.go:161-176 | each loop counts at most one drop per client over a whole run; the counter is the number of these events and at most twice the number of clients |
| HubTheorems.CountedIffFoundFull | internal/wshub/hub.go:161-176 | over a whole run a loop counts a client, or is about to, if and only if one of its offers found the channel full |
| HubTheorems.NeverCountedAgain | internal/wshub/hub.go:161-176 | in no continuation does a loop count a client that is closed and not in its snapshot |
| HubTheorems.CountedAgainIffPending | internal/wshub/hub.go:154-176 | for a client that is closed and not yet counted by a loop: once the loop is between broadcasts it has counted the client if and only if it held it in its snapshot, with the channel full and the pump gone, or had found the channel full |
| HubTheorems.FanoutConservation | internal/wshub/hub.go:60-63 | sends plus drops equal the snapshot entries processed; sends equal the frames enqueued to all clients; enqueued frames are those taken followed by the buffer, which holds at most the configured number, or 256 |
| HubTheorems.SendsAreDeliveries | internal/wshub/hub.go:45-47 | the counter of sends is at least the number of frames delivered, and equal to it if and only if no channel holds a frame and no pump took one without writing it |
| HubTheorems.NoResurrection | internal/wshub/client.go:111-121 | once a close has completed, in every continuation the client is closed, hung up and out of the map, and no call of close gets past its entry |
| HubLifecycle.ClosedOnce | internal/wshub/client.go:113-115 | whenever a thread is about to close a client's channel it is still open |
| HubLifecycle.LeaversAreClosed | internal/wshub/client.go:71-109 | in every reachable state a reader or pump that has ended is inside close or the close is done; with nobody inside close the client is closed, hung up and unregistered |
| HubLifecycle.ClosedForAReason | internal/wshub/hub.go:161-176 | over any run a client is closed only if its read, write or ping failed, a loop found its channel full, or Stop swept it |
| HubLifecycle.DeliveriesAreWrites | internal/wshub/client.go:88-99 | frames delivered are the writes that succeeded |
| HubLifecycle.LoopGoesRound | internal/wshub/hub.go:191-206 | over any run a loop that has not ended tests the context, stays in its call until that returns, checks, sleeps, and tests again |
| HubService.LeaverCanBeClosed | internal/wshub/client.go:113-121 | from every reachable state a client that has left can be closed and unregistered, whatever the other threads are doing |
| HubService.LoopReconnects | internal/wshub/hub.go:191-206 | from every reachable uncancelled state a loop between calls gets back into its upstream call by its own next steps |
| HubService.EveryMessageCanReach | internal/wshub/hub.go:153-177 | from every reachable state before Stop, any message of any loop can be sent to any registered client that nobody is closing |
| HubTheorems.CloseReturnsUnregistered | internal/wshub/client.go:113-121 | the same at the return of any call of close in any reachable state, also for callers that did not run it |
| HubTheorems.MutualExclusion | internal/wshub/hub.go:134-148 | between a write of the client map and its unlock no other thread is inside the lock |
| HubShutdown.WaitsDescend | internal/wshub/hub.go:95-177 | whoever a thread waits for, through mu, dropMu, a once or the wait group, is strictly closer to running |
| HubShutdown.NoWaitCycle | internal/wshub/hub.go:95-177 | in no reachable state does a chain of waiting threads close into a cycle |
| HubShutdown.ChainToMover | internal/wshub/hub.go:95-177 | every thread that wants to go on can, or waits in at most four hops for one that can |
| HubShutdown.StepDescends | internal/wshub/hub.go:97-117 | after cancellation every working step of any thread decreases one natural number; before it, every one that begins nothing new |
| HubShutdown.ShutdownIsBounded | internal/wshub/hub.go:97-117 | after cancellation every run without new clients takes a bounded number of working steps, for every schedule |
| HubShutdown.StopReturns | internal/wshub/hub.go:95-117 | from every reachable state after the call of Stop it can return, and a state in which no hub thread can move is one in which it has |
| HubShutdown.StopLeavesNothing | internal/wshub/hub.go:104-116 | when Stop has returned both loops have ended and every client registered at its copy of the map is closed, hung up and unregistered |
| HubLateClients.LateClientOutlivesStop | internal/wshub/hub.go:95-117 | from every reachable state after the copy, any connection not yet registered can register before Stop returns and be open and registered when it has |
| HubLateClients.StopClosesExactlyRegistered | internal/wshub/hub.go:93-117 | a connection is closed in every continuation in which Stop has returned if and only if it had registered when Stop copied the client map |
| HubWitnesses.LateClientStaysOpen | internal/wshub/hub.go:95-117 | a run in which a client registers after the copy, while Stop waits for the loops, and is registered and open when Stop has returned |
| HubWitnesses.SentNotDelivered | internal/wshub/hub.go:45-47 | a run with one send counted and nothing delivered |
| HubWitnesses.DropCountedTwice | internal/wshub/hub.go:168-170 | a run in which one client is counted as dropped twice, so the bound of two per client is reached |
| Text.HexDigits | internal/models/assetid.go:32 | each byte is given by two hexadecimal digits, the higher first |
| Text.HexInjective | internal/models/assetid.go:32 | different hashes have different hex encodings |
| Text.TrimIsCore | internal/models/assetid.go:53 | trimming takes away the white space at both ends, all of it and nothing else |
| Text.SpacesListed | internal/models/assetid.go:53 | white space is that of Unicode |
| Assets.NormaliseAssetID | internal/models/asset.go:68-78 | adds 32 to every character from A to Z and keeps every other |
| Assets.FindAsset | internal/models/asset.go:56-64 | the first entry whose id is the normalised input, or nothing if there is none |
| Assets.AssetIDs | internal/models/asset.go:82-88 | the catalog ids in catalog order |
| Assets.Scan | internal/models/asset.go:58-63 | a scan succeeds if and only if some entry has the id, with the first that does |
| Assets.AssetIndex.constructor | internal/models/assetid.go:26-36 | the loop builds both tables for the whole catalog |
| Assets.AssetIndex.AssetIDHash | internal/models/assetid.go:43-46 | lookup of the normalised id in the first table |
| Assets.AssetIndex.AssetByIDHash | internal/models/assetid.go:52-55 | lookup of the trimmed lower-case hash in the second table |
| Assets.IndexFindsWhatScanFinds | internal/models/assetid.go:43-46 | for any catalog the table and the scan succeed on the same inputs |
| Assets.IndexAgreesWithScan | internal/models/assetid.go:38-46 | with distinct ids the table gives the on-chain id of the entry that the scan finds |
| Assets.IdTableEntry | internal/models/assetid.go:33 | of several entries with one id the first table keeps the last |
| Assets.HashTableEntry | internal/models/assetid.go:34 | of several entries with one on-chain id the second table keeps the last |
| Assets.SpellingsFind | internal/models/assetid.go:38-46 | an input finds an entry, by scan and in the table, if and only if it is the entry's id up to the case of its letters |
| Assets.OnChainIdDigits | internal/models/assetid.go:28-32 | an on-chain id is 0x and the digits of the hash of the upper-case ticker |
| Assets.RoundTripIffSeparated | internal/models/assetid.go:48-55 | the two tables are inverse on every tracked input if and only if the hash separates the catalog's tickers |
| Assets.ByHashExact | internal/models/assetid.go:48-55 | a reverse lookup gives an entry if and only if the text is its on-chain id in any letter case with white space around it |
| Assets.CatalogIsDistinct | internal/models/asset.go:41-52 | the shipped catalog has canonical, pairwise distinct ids |
| Assets.TickersSpellIds | internal/models/assetid.go:38-41 | every shipped ticker is its entry's id in upper case, so that it resolves too |
| Registry.AggregatorRegistry.Set | internal/aggregatorregistry/registry.go:74-78 | writes one normalised id |
| Registry.AggregatorRegistry.Aggregator | internal/aggregatorregistry/registry.go:65-70 | looks up one normalised id |
| Registry.AggregatorRegistry.Absorb | internal/aggregatorregistry/registry.go:48-58 | a registration whose hash is in the catalog is one write, any other event none |
| Registry.AggregatorRegistry.Load | internal/aggregatorregistry/registry.go:35-61 | a page is the fold of its writes onto the old map; a failed query changes nothing |
| Registry.AggregatorRegistry.OnLiveEvent | internal/wshub/hub.go:218-223 | a live event is the fold of its writes onto the old map |
| Registry.LiveRegistersWrites | internal/wshub/hub.go:218-223 | a live event changes an id if and only if its kind says registration and its payload is one of that asset |
| Registry.RegistersWrites | internal/aggregatorregistry/registry.go:48-58 | a loaded event changes an id if and only if its payload registers that asset, whatever its kind |
| Registry.AggregatorRegistry.Snapshot | internal/aggregatorregistry/registry.go:82-90 | an equal copy of the map |
| Registry.RegistryIsLastWrite | internal/aggregatorregistry/registry.go:47-60 | after any mix of pages and live events a key is present if and only if some event wrote it, with the value of the last one processed |
| Registry.LoadKeepsOldest | internal/aggregatorregistry/registry.go:47-60 | of the registrations of an asset on a page listed newest first a load keeps the oldest; it shows the newest address if and only if the first and the last carry the same |
| Registry.OlderAddressWins | internal/aggregatorregistry/registry.go:47-60 | a page with two addresses of one asset after which the registry shows the older |
| Registry.OrderDoesNotMatter | internal/aggregatorregistry/registry.go:5-9 | with one address per asset and kinds that mirror payloads, any order, grouping or repetition of the same events gives the same map |
| Registry.KeysAreCatalogIds | internal/aggregatorregistry/registry.go:51-58 | every key is the id of a catalog entry |
| Handlers.LatestOnChainRound | internal/handlers/handlers.go:151-179 | the first row of the reply, and only if it is a fulfilment that names the asset asked for |
| Handlers.ListAssets | internal/handlers/handlers.go:54-71 | one summary per catalog entry, in catalog order, each the join for that entry |
| Handlers.JoinIsFaithful | internal/handlers/handlers.go:139-179 | a summary keeps its entry's fields, shows the registry's address and the service's price, and shows a fulfilment if and only if the first row of the reply to the query for its on-chain id is a fulfilment with that id, then that row's, which names no other entry |

## Left out

- gRPC clients, dialing and protobuf conversion; an upstream call is an arbitrary sequence of messages followed by a return, and after cancellation a finite one.
- WebSocket framing, upgrade failures, ping and pong timers and deadlines; a read, write or ping is a step that may succeed or fail.
- Redis transport, script caching and reply decoding; an unusable reply is one failing outcome of `Allow`, whether or not the script ran.
- `ClientIP` and proxy matching, CORS, access log, configuration, metrics registration, module manager, health server, submissions and the single-asset price endpoint.
- Machine integers: stamps, counts and the drop counter are unbounded, and sorted-set scores are exact integers rather than doubles.
- Update in place of the hub's fields: the hub is a transition system on values, so aliasing of `Client` pointers is replaced by connection numbers.
- `ClientCount` and `DropCount`, which take a lock, read and release it, and the registry's own lock, under which nothing else is taken.
- Restarting a hub after `Stop`, `Stop` before `Start`, and calls of `Start` and `Stop` from several goroutines; lifecycle calls come from one.
- Fairness of the Go scheduler and of lock queues: `StopReturns` and `ShutdownIsBounded` give progress and a bound, not a time.
- New clients arriving forever during shutdown: the bound on working steps counts from the last arrival.
- Unicode case mapping: lowering, upper-casing and case-insensitive comparison are ASCII; table keys are hex digits, which no non-ASCII character folds to.
- The keccak hash and uuid generation, replaced by an arbitrary function and fresh tokens.
