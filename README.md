# Product catalog proxy: rate limiter, cache-aside reads, latency statistics

This project models the core of a proxy service that serves a simplified product catalog
from a remote, rate-limited GraphQL product API. The model covers four parts:

- **Statistics collector** (`Stats`). There are two bounded FIFO windows of latency
  samples, one for endpoint calls and one for upstream calls. Each keeps the last 1000
  samples. Two unbounded counters count the calls, and `GetStats` summarises them. For
  the endpoint series it reports the rounded average, the maximum and the minimum; for the
  upstream series only the rounded average. Each figure is 0 for an empty series. The class keeps a
  ghost history of every sample recorded. Its invariant says each window is the last
  `min(N, 1000)` samples of that history, in order, and each counter is the history's
  length.
- **Upstream client** (`RateLimit`, `Shopify`). The rate-limit estimate is a datatype of
  four fields. It is updated in place from server-reported throttle metadata and charged
  with each call's actual cost. `WaitForRateLimit` returns the wait before a post instead
  of sleeping. A 429 reply makes the client sleep `retry-after` seconds (default 1) and
  reissue the same request. Any other failure surfaces unchanged. `QueryRun` is the
  reference behaviour; the recursive method `Query` is proved against it. A ghost `log`
  of events (budget waits, posts, retry sleeps) says what the client did, including
  "no upstream call". The products query's reply is reshaped into a page: edge nodes in
  order, `hasNextPage` copied, and `endCursor || undefined` as the next cursor.
- **Cache wrapper** (`Cache`). The `isConnected` flag and the existence of a client gate
  `get`, `set` and `del`. A store failure becomes "absent" or a no-op. Only `connect`
  ever sets the flag; the "error" event and `disconnect` clear it.
- **Catalog service** (`Catalog`). It builds the deterministic keys
  `products:<limit>:<cursor or "first">` and `product:<id>`. It normalises each product
  by the first-variant rule. Its cache-aside reads are:
  - a hit returns the cached value, with no upstream activity and the cache untouched;
  - a miss makes exactly one upstream query, stores the assembled result and returns it;
  - a product that does not exist is never cached.

Inputs that the service gets from its environment are parameters of the model:

- clock readings: the start and end of each post;
- the upstream's replies: a finite sequence of `Attempt`s;
- whether a cache store call fails: a `fails` flag;
- whether connecting succeeds: a `succeeds` flag.

Behaviour of the code that the model keeps:

- The code never clamps the budget estimate at 0. An actual cost larger than the estimate
  makes it negative (`RateLimit.NoLowerClamp`).

## Model

Several definitions carry no contract of their own; the rows below state what they mean:

- `RateLimit.QueryRun` (shopifyClient.ts:63-99), the reference run of one query: the
  `RateLimit.ThrottledRetries`, `RateLimit.QueryRunOutcome`, `RateLimit.QueryRunSameRequest`,
  `RateLimit.QueryRunPostCount` and `RateLimit.QueryRunSleeps` rows.
- `RateLimit.ThrottleOf` and `RateLimit.CostOf` (shopifyClient.ts:35 and 82), the optional
  throttle status and actual cost of a reply: the `RateLimit.UpdatedRateLimit` and
  `RateLimit.AfterSuccess` rows.
- `Stats.Sum` (statsService.ts:31): the `Stats.SumBounds`, `Stats.MeanWithin` and
  `Stats.CalculateStats` rows. `Stats.Pushed` (statsService.ts:8-13): the
  `Stats.PushedKeepsWindow` row.
- `Catalog.CursorPart`, `Catalog.PageKey` and `Catalog.ItemKey` (productService.ts:26 and 47):
  the `Catalog.KeyShapes`, `Catalog.PageKeyInjective`, `Catalog.ItemKeyInjective` and
  `Catalog.FirstCursorSharesKey` rows.
- `Catalog.ResponseResult`, `Catalog.ProductResult` and `Catalog.StoreAfterWrite`
  (productService.ts:33-43 and 54-62), what a miss returns and writes: the
  `Catalog.ProductService.GetProducts` and `Catalog.ProductService.GetProductById` rows.

| member | source | states |
|---|---|---|
| Stats.MaxOf | src/services/statsService.ts:34 | the result is a sample of the series and no sample exceeds it |
| Stats.MinOf | src/services/statsService.ts:35 | the result is a sample of the series and no sample is below it |
| Stats.RoundedMean | src/services/statsService.ts:33 | `Math.round(sum / len)`: the integer nearest to the mean, halves rounded up (`2·len·r − len ≤ 2·sum < 2·len·r + len`) |
| Stats.SumBounds | src/services/statsService.ts:31 | when every sample lies in [lo, hi], the sum lies in [lo·len, hi·len] |
| Stats.MeanWithin | src/services/statsService.ts:31-36 | a rounded mean of samples bounded by lo and hi lies in [lo, hi] |
| Stats.CalculateStats | src/services/statsService.ts:26-37 | all zero on an empty series; otherwise max and min are the series' extremes, the average is the rounded mean, and min ≤ average ≤ max |
| Stats.ShopifyAverage | src/services/statsService.ts:42-48 | the upstream average is 0 on an empty series and otherwise the same rounded mean as the endpoint average |
| Stats.LastN | src/services/statsService.ts:11-13 | the window is the suffix of the history of length min(N, 1000) |
| Stats.PushedKeepsWindow | src/services/statsService.ts:7-23 | `push` then `shift` past 1000 applied to the window of a history gives the window of the history extended by the new sample |
| Stats.StatsService.constructor | src/services/statsService.ts:1-5 | both windows empty, both counters 0 |
| Stats.StatsService.RecordEndpointCall | src/services/statsService.ts:7-14 | the sample is appended (oldest shifted out past 1000), the window stays at most 1000 long and ends with the sample, the endpoint counter grows by exactly 1, and the upstream window and counter are unchanged |
| Stats.StatsService.RecordShopifyCall | src/services/statsService.ts:16-23 | the same for the upstream series, leaving the endpoint series and counter unchanged |
| Stats.StatsService.GetStats | src/services/statsService.ts:25-51 | the distribution figures are those of the last 1000 samples recorded; the totals count every call recorded since construction or reset |
| Stats.StatsService.Reset | src/services/statsService.ts:53-58 | both windows empty and both counters 0 |
| RateLimit.InitialRateLimit | src/services/shopifyClient.ts:14-19 | a new estimate holds 1000 of 1000 tokens, restored at 50 per second |
| RateLimit.Restored | src/services/shopifyClient.ts:38-42 | `Math.floor(elapsed / 1000 × restoreRate)` at the old restore rate |
| RateLimit.UpdatedRateLimit | src/services/shopifyClient.ts:34-52 | no throttle status leaves the state unchanged; otherwise available becomes min(currentlyAvailable + restored at the old rate, maximumAvailable), the rate and maximum take the reported values, lastUpdate becomes now, so available ≤ maxAvailable |
| RateLimit.EstimateExceedsReport | src/services/shopifyClient.ts:44-47 | after a token's worth of elapsed time, the estimate exceeds the server's reported availability unless the maximum caps it |
| RateLimit.AfterSuccess | src/services/shopifyClient.ts:76-85 | after a success the throttle update is applied first, then exactly the actual cost is subtracted, with no lower clamp |
| RateLimit.NoLowerClamp | src/services/shopifyClient.ts:82-85 | for every state and reply, an actual cost larger than the updated estimate leaves it negative |
| RateLimit.CeilDiv | src/services/shopifyClient.ts:56-58 | `Math.ceil(n / d)` for a divisor of either sign |
| RateLimit.RateLimitWait | src/services/shopifyClient.ts:54-61 | no wait iff a whole token is available; otherwise, at a positive rate, the least positive ms with ms·rate ≥ (1 − available)·1000; `Infinity` at rate 0 |
| RateLimit.EmptyBudgetWaits20ms | src/services/shopifyClient.ts:54-61 | with 0 tokens at 50 per second the wait is 20 ms |
| RateLimit.RetryDelayMs | src/services/shopifyClient.ts:90-94 | the retry sleep is retry-after × 1000 ms, 1000 ms when the header is absent |
| RateLimit.LeadingThrottles | src/services/shopifyClient.ts:89-95 | the number of 429 replies before the first reply that is not one |
| RateLimit.ThrottledRetries | src/services/shopifyClient.ts:89-95 | a 429 reply gives the budget wait, a post and the retry sleep, then the events, outcome and state of the rest of the query from the unchanged state |
| RateLimit.QueryRunOutcome | src/services/shopifyClient.ts:63-99 | the first reply that is not a 429 decides the result: a success returns its data, updates then charges the estimate and records one latency; any other error is raised unchanged, with the estimate untouched |
| RateLimit.QueryRunSameRequest | src/services/shopifyClient.ts:95 | every post of a query sends the identical request |
| RateLimit.QueryRunPostCount | src/services/shopifyClient.ts:89-95 | one post per 429 reply plus one for the reply that ends the query |
| RateLimit.QueryRunSleeps | src/services/shopifyClient.ts:89-95 | the retry sleeps are exactly those the 429 replies call for, in order |
| Shopify.ProductsVariablesFor | src/services/shopifyClient.ts:132-135 | `first` is the limit; `after` is sent iff a non-empty cursor is given, and is that cursor |
| Shopify.Nodes | src/services/shopifyClient.ts:150 | the edge nodes, same length and order |
| Shopify.ReshapeProducts | src/services/shopifyClient.ts:149-153 | the page's products are the edge nodes in order, `hasNextPage` is copied, the next cursor is `endCursor` when non-empty and absent otherwise |
| Shopify.PageResult | src/services/shopifyClient.ts:149-153 | a query's data becomes the reshaped page, and its error is passed on unchanged |
| Shopify.NodeResult | src/services/shopifyClient.ts:179 | a query's data becomes its product, absent when the upstream has none; its error is passed on unchanged |
| Shopify.ShopifyClient.constructor | src/services/shopifyClient.ts:14-19 | the client starts from the initial estimate with an empty log, and is valid over a valid collector |
| Shopify.ShopifyClient.UpdateRateLimit | src/services/shopifyClient.ts:34-52 | the estimate becomes `UpdatedRateLimit` of the old one |
| Shopify.ShopifyClient.WaitForRateLimit | src/services/shopifyClient.ts:54-61 | returns the wait `RateLimitWait` prescribes for the current estimate |
| Shopify.ShopifyClient.Query | src/services/shopifyClient.ts:63-99 | the new estimate, outcome, logged events and recorded upstream latencies are those of `QueryRun`; endpoint statistics are unchanged |
| Shopify.ShopifyClient.GetProducts | src/services/shopifyClient.ts:101-154 | runs the products query with the variables above and returns the reshaped page or the query's error |
| Shopify.ShopifyClient.GetProductById | src/services/shopifyClient.ts:156-180 | runs the product query for the id and returns its product (absent when none) or the query's error |
| Text.NatToString | src/services/productService.ts:26 | decimal digits whose value is the number, with no leading zero |
| Text.IntToString | src/services/productService.ts:26 | a minus sign first exactly for negative numbers, then only decimal digits, with no leading zero, whose value is the magnitude; never a ':' |
| Text.NatToStringInjective | src/services/productService.ts:26 | distinct naturals render differently |
| Text.IntToStringInjective | src/services/productService.ts:26 | distinct integers render differently |
| Catalog.KeyKindsDisjoint | src/services/productService.ts:26-47 | no key has both the page prefix and the item prefix (the eighth character is 's' or ':') |
| Catalog.KeyShapes | src/services/productService.ts:26-47 | page keys carry the page prefix, item keys the item prefix, and a page key never equals an item key |
| Catalog.SplitAtFirstColon | src/services/productService.ts:26 | a colon-free part followed by ':' is fixed by the string it starts, so the limit's rendering and the cursor part can be read back from a page key |
| Catalog.PageKeyInjective | src/services/productService.ts:26 | equal page keys mean the same limit and the same cursor part |
| Catalog.ItemKeyInjective | src/services/productService.ts:47 | equal item keys mean the same id |
| Catalog.FirstCursorSharesKey | src/services/productService.ts:26 | the cursors "first" and "" share the key of a request with no cursor |
| Catalog.TransformProduct | src/services/productService.ts:11-23 | id, title and creation time are copied; price and inventory come from the first variant only, 0 when there is none or the field is missing or falsy |
| Catalog.FirstVariantOnly | src/services/productService.ts:12-14 | variants after the first never change the product (no aggregate) |
| Catalog.TransformAll | src/services/productService.ts:35 | each node transformed, same length and order |
| Catalog.BuildResponse | src/services/productService.ts:35-39 | products transformed in order; `next_page` is the next cursor only when there is a next page |
| Catalog.ProductService.constructor | src/services/productService.ts:6-9 | the service holds the given client and cache, and is valid when the client is and the store is well keyed |
| Catalog.ProductService.GetProducts | src/services/productService.ts:25-44 | hit: the cached page, no upstream activity, the cache unchanged; miss: one query, its assembled response returned and stored under the page key with the configured TTL (when the cache is usable and the write succeeds), and an error stores nothing |
| Catalog.ProductService.GetProductById | src/services/productService.ts:46-63 | hit: the cached product, no upstream activity; miss: one query; an absent product is returned as absent and not cached; a found one is transformed, stored and returned |
| Catalog.RepeatedPageIsCached | src/services/productService.ts:28-43 | with a cold, working cache, a second identical page request returns the first's result and adds no upstream activity |
| Cache.CacheService.constructor | src/services/cacheService.ts:4-6 | a new wrapper has no client and is not connected |
| Cache.CacheService.Connect | src/services/cacheService.ts:8-29 | a client exists afterwards; the wrapper is connected iff the attempt succeeds; a failure is swallowed |
| Cache.CacheService.OnError | src/services/cacheService.ts:17-20 | the client's "error" event leaves the wrapper disconnected |
| Cache.CacheService.Fetched | src/services/cacheService.ts:31-43 | absent when disconnected, without a client, or on a store error; a value returned is the one stored as JSON under the key; missing or unparsable text is absent |
| Cache.CacheService.Get | src/services/cacheService.ts:31-43 | returns what `Fetched` prescribes and never fails |
| Cache.CacheService.Set | src/services/cacheService.ts:45-55 | when usable and the call succeeds, the value is stored with the given TTL or the configured 300 s; otherwise the store is unchanged; the connection flags are unchanged |
| Cache.CacheService.Del | src/services/cacheService.ts:57-67 | when usable and the call succeeds, the key is removed; otherwise the store is unchanged |
| Cache.CacheService.Disconnect | src/services/cacheService.ts:69-74 | with a client, the wrapper ends disconnected; without one, nothing changes |
| Cache.SetThenGet | src/services/cacheService.ts:31-55 | on a usable wrapper with working store calls, a value written is read back |
| Cache.DisconnectedIsInert | src/services/cacheService.ts:31-74 | after disconnecting, the client remains but the wrapper is disconnected; writes and deletes change nothing and reads are absent; nothing reconnects |

## Left out

- HTTP routes, middleware, process start-up and signal handling, and the client SDK. They
  only pass values through. The statistics middleware is modelled as a caller of
  `RecordEndpointCall` with a given latency.
- Configuration: the cache TTL is the constant `Cache.DefaultTtl` (300 s), the default of
  the environment setting. Environment reads are not modelled.
- I/O and clocks. The model does not perform HTTP posts or Redis calls, and does not read
  `Date.now()`. Each `Attempt` carries the clock readings before and after its post.
  `updateRateLimit` reads its own clock just after the post's end; the model uses the
  end reading for it.
- Sleeping. Waits and retry sleeps are returned as durations (`Wait`, `RetrySleep`). Node's
  timer clamping is not modelled: an `Infinity` or negative timeout really lasts about 1 ms.
- Numbers. JavaScript doubles are modelled as unbounded integers: sums, budgets, costs and
  the restoration product have no rounding error. A fractional budget or rate from the
  server is not modelled.
- Parsing. `parseFloat` of a price is kept as the text it parses (`Price.ParseFloat`). A
  `retry-after` header is given as an optional, already-parsed integer, so a
  non-numeric header (NaN) is not modelled.
- The rendering of `limit` in the page key covers integers only. NaN, `-0` and exponent
  notation are not modelled.
- Malformed replies: a GraphQL error reply with null data, or a cost block without
  `actualQueryCost`, would throw or produce NaN in the source. The reply types exclude them.
- Shopify.ShopifyClient.Query: does not model unbounded retrying. The upstream's replies
  are a finite sequence, and when it runs out during a run of 429s the query ends with
  the model-only outcome `Exhausted` and the page and product methods return
  `RepliesExhausted`.
- Catalog.ProductService.GetProducts: the source would return a cached product object
  found under a page key as if it were a page. The model's invariant `WellKeyed` (pages
  only under page keys, products only under item keys) rules that out. This service is
  the only writer, and `KeyShapes` proves its keys keep the invariant.
- Cache.CacheService.Fetched: text in the store that the service did not write (`Raw`)
  reads as absent. That covers empty and unparsable text. JSON of another shape, or a
  falsy JSON value such as `0`, is not modelled.
- Cache.CacheService.Set: a failed store call is taken to leave the store unchanged. A
  write that lands before the error is reported is not modelled.
- The store's own expiry of entries and the Redis client's automatic reconnection are not
  modelled. The wrapper's flag is never set again after an error, so this does not change
  what the wrapper does. A failing `quit()` in `disconnect` and a throwing
  `createClient` are not modelled.
- Concurrency: interleaved queries sharing the rate-limit estimate, and duplicate fetches
  on concurrent misses. The model is sequential.
- The process-wide statistics singleton is the client's `stats` reference. Its presence
  check is always true once the module is loaded.
- Console logging.
