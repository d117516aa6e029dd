/** The upstream product API client: it holds the rate-limit estimate, waits and retries
    around each post, records upstream latency with the statistics collector, and reshapes
    the replies of the two catalog queries. */
module Shopify {
  import opened Wrappers
  import opened CatalogTypes
  import opened RateLimit
  import Stats

  /** One page as the client returns it: the upstream nodes, whether there are more, and
      the cursor to continue from. */
  datatype ProductsPage = ProductsPage(
    products: seq<ShopifyProductNode>,
    hasNextPage: bool,
    nextCursor: Option<string>)

  /** Why a catalog query produced no data. */
  datatype FetchError = UpstreamFailed(error: UpstreamError) | RepliesExhausted

  /** JavaScript truthiness of an optional string: present and not empty. */
  predicate Truthy(s: Option<string>) {
    s.Some? && s.value != ""
  }

  /** The variables of the products query: `after` is sent only when a cursor is given. */
  function ProductsVariablesFor(limit: int, cursor: Option<string>): (v: Variables)
    ensures v.ProductsVariables? && v.first == limit
    ensures v.after.Some? <==> Truthy(cursor)
    ensures v.after.Some? ==> v.after == cursor
  {
    ProductsVariables(limit, if Truthy(cursor) then cursor else None)
  }

  function ProductsRequest(limit: int, cursor: Option<string>): Request {
    Request(ProductsQuery, ProductsVariablesFor(limit, cursor))
  }

  function ProductRequest(id: string): Request {
    Request(ProductQuery, ProductVariables(id))
  }

  /** The nodes of the edges, in order. */
  function Nodes(edges: seq<ProductEdge>): (r: seq<ShopifyProductNode>)
    ensures |r| == |edges|
    ensures forall i :: 0 <= i < |edges| ==> r[i] == edges[i].node
  {
    if |edges| == 0 then [] else [edges[0].node] + Nodes(edges[1..])
  }

  /** The page made of a products reply: the edge nodes in order, `hasNextPage` copied and
      `endCursor || undefined` as the next cursor. */
  function ReshapeProducts(data: ProductsData): (r: ProductsPage)
    ensures |r.products| == |data.products.edges|
    ensures forall i :: 0 <= i < |r.products| ==> r.products[i] == data.products.edges[i].node
    ensures r.hasNextPage == data.products.pageInfo.hasNextPage
    ensures r.nextCursor.Some? <==> Truthy(data.products.pageInfo.endCursor)
    ensures r.nextCursor.Some? ==> r.nextCursor == data.products.pageInfo.endCursor
  {
    var info := data.products.pageInfo;
    ProductsPage(Nodes(data.products.edges), info.hasNextPage,
                 if Truthy(info.endCursor) then info.endCursor else None)
  }

  /** What `getProducts` returns for the outcome of its query. */
  function PageResult(outcome: QueryOutcome<ProductsData>): (r: Result<ProductsPage, FetchError>)
    ensures outcome.Done? <==> r.Ok?
    ensures outcome.Done? ==> r.value == ReshapeProducts(outcome.data)
    ensures outcome.Raised? ==> r == Err(UpstreamFailed(outcome.error))
  {
    match outcome
    case Done(data) => Ok(ReshapeProducts(data))
    case Raised(e) => Err(UpstreamFailed(e))
    case Exhausted => Err(RepliesExhausted)
  }

  /** What `getProductById` returns for the outcome of its query: the reply's product,
      `None` when the upstream has none with that id. */
  function NodeResult(outcome: QueryOutcome<ProductData>): (r: Result<Option<ShopifyProductNode>, FetchError>)
    ensures outcome.Done? <==> r.Ok?
    ensures outcome.Done? ==> r.value == outcome.data.product
    ensures outcome.Raised? ==> r == Err(UpstreamFailed(outcome.error))
  {
    match outcome
    case Done(data) => Ok(data.product)
    case Raised(e) => Err(UpstreamFailed(e))
    case Exhausted => Err(RepliesExhausted)
  }

  class ShopifyClient {
    var rateLimitState: RateLimitState
    /** The process-wide statistics collector the client reports upstream latency to. */
    const stats: Stats.StatsService
    /** Everything the client has done that is observable, oldest first. */
    ghost var log: seq<Event>

    ghost predicate Valid()
      reads this, stats
    {
      stats.Valid()
    }

    /** A client created at clock reading `now` starts with 1000 of 1000 tokens,
        restored at 50 a second. */
    constructor (stats: Stats.StatsService, now: int)
      requires stats.Valid()
      ensures Valid()
      ensures this.stats == stats
      ensures rateLimitState == InitialRateLimit(now)
      ensures log == []
    {
      this.stats := stats;
      rateLimitState := RateLimitState(1000, 50, 1000, now);
      log := [];
    }

    /** Takes in the throttle status of a reply, read at clock reading `now`. */
    method UpdateRateLimit(extensions: Option<Extensions>, now: int)
      modifies this
      ensures rateLimitState == UpdatedRateLimit(old(rateLimitState), extensions, now)
      ensures log == old(log)
    {
      if ThrottleOf(extensions).Some? {
        var throttle := ThrottleOf(extensions).value;
        var timeSinceLastUpdate := now - rateLimitState.lastUpdate;
        var restored := (timeSinceLastUpdate * rateLimitState.restoreRate) / 1000;
        var candidate := throttle.currentlyAvailable + restored;
        rateLimitState := rateLimitState.(
          available := if candidate <= throttle.maximumAvailable then candidate else throttle.maximumAvailable);
        rateLimitState := rateLimitState.(restoreRate := throttle.restoreRate);
        rateLimitState := rateLimitState.(maxAvailable := throttle.maximumAvailable);
        rateLimitState := rateLimitState.(lastUpdate := now);
      }
    }

    /** The wait before the next post. */
    method WaitForRateLimit() returns (w: Wait)
      ensures w == RateLimitWait(rateLimitState)
    {
      if rateLimitState.available < 1 {
        if rateLimitState.restoreRate == 0 {
          w := WaitForever;
        } else {
          w := WaitMs(CeilDiv((1 - rateLimitState.available) * 1000, rateLimitState.restoreRate));
        }
      } else {
        w := NoWait;
      }
    }

    /** Sends `request`; the upstream answers its successive posts with `attempts`. */
    method Query<T>(request: Request, attempts: seq<Attempt<T>>) returns (outcome: QueryOutcome<T>)
      requires Valid()
      modifies this, stats
      decreases |attempts|
      ensures Valid()
      ensures var run := QueryRun(old(rateLimitState), request, attempts);
        && rateLimitState == run.state
        && outcome == run.outcome
        && log == old(log) + run.events
        && stats.shopifyHistory == old(stats.shopifyHistory) + run.latencies
        && stats.endpointHistory == old(stats.endpointHistory)
    {
      if |attempts| == 0 {
        return Exhausted;
      }
      ghost var s0, log0, h0 := rateLimitState, log, stats.shopifyHistory;
      var w := WaitForRateLimit();
      ghost var pre := WaitEvents(w) + [Post(request)];
      assert pre == WaitEvents(RateLimitWait(s0)) + [Post(request)];
      log := log0 + pre;
      var attempt := attempts[0];
      match attempt.reply
      case Success(data, extensions) =>
        UpdateRateLimit(extensions, attempt.endTime);
        stats.RecordShopifyCall(attempt.endTime - attempt.startTime);
        if extensions.Some? && extensions.value.cost.Some? {
          var cost := extensions.value.cost.value.actualQueryCost;
          rateLimitState := rateLimitState.(available := rateLimitState.available - cost);
        }
        outcome := Done(data);
        assert QueryRun(s0, request, attempts) ==
          RunResult(AfterSuccess(s0, extensions, attempt.endTime), Done(data), pre, [attempt.endTime - attempt.startTime]);
      case Failure(e) =>
        if e.status == Some(429) {
          var retryAfter := if e.retryAfter.Some? then e.retryAfter.value else 1;
          ghost var sleep := [RetrySleep(RetryDelayMs(e.retryAfter))];
          log := log + [RetrySleep(retryAfter * 1000)];
          assert log == log0 + (pre + sleep);
          outcome := Query(request, attempts[1..]);
          ghost var rest := QueryRun(s0, request, attempts[1..]);
          assert QueryRun(s0, request, attempts) ==
            RunResult(rest.state, rest.outcome, pre + sleep + rest.events, rest.latencies);
          assert log == log0 + (pre + sleep + rest.events);
        } else {
          outcome := Raised(e);
          assert QueryRun(s0, request, attempts) == RunResult(s0, Raised(e), pre, []);
        }
    }

    /** One page of products, `limit` long, starting after `cursor` when one is given. */
    method GetProducts(limit: int, cursor: Option<string>, attempts: seq<Attempt<ProductsData>>)
      returns (r: Result<ProductsPage, FetchError>)
      requires Valid()
      modifies this, stats
      ensures Valid()
      ensures var run := QueryRun(old(rateLimitState), ProductsRequest(limit, cursor), attempts);
        && rateLimitState == run.state
        && r == PageResult(run.outcome)
        && log == old(log) + run.events
        && stats.shopifyHistory == old(stats.shopifyHistory) + run.latencies
        && stats.endpointHistory == old(stats.endpointHistory)
    {
      var variables := ProductsVariables(limit, None);
      if cursor.Some? && cursor.value != "" {
        variables := variables.(after := cursor);
      }
      var outcome := Query(Request(ProductsQuery, variables), attempts);
      match outcome
      case Done(data) =>
        var info := data.products.pageInfo;
        r := Ok(ProductsPage(Nodes(data.products.edges), info.hasNextPage,
                             if Truthy(info.endCursor) then info.endCursor else None));
      case Raised(e) =>
        r := Err(UpstreamFailed(e));
      case Exhausted =>
        r := Err(RepliesExhausted);
    }

    /** The upstream node of the product with this id, `None` when there is none. */
    method GetProductById(id: string, attempts: seq<Attempt<ProductData>>)
      returns (r: Result<Option<ShopifyProductNode>, FetchError>)
      requires Valid()
      modifies this, stats
      ensures Valid()
      ensures var run := QueryRun(old(rateLimitState), ProductRequest(id), attempts);
        && rateLimitState == run.state
        && r == NodeResult(run.outcome)
        && log == old(log) + run.events
        && stats.shopifyHistory == old(stats.shopifyHistory) + run.latencies
        && stats.endpointHistory == old(stats.endpointHistory)
    {
      var outcome := Query(Request(ProductQuery, ProductVariables(id)), attempts);
      match outcome
      case Done(data) =>
        r := Ok(data.product);
      case Raised(e) =>
        r := Err(UpstreamFailed(e));
      case Exhausted =>
        r := Err(RepliesExhausted);
    }
  }
}
