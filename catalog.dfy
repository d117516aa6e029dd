/** The cache-aside catalog service: it derives a deterministic key per query, answers
    from the cache on a hit without any upstream call, and on a miss fetches through the
    upstream client, normalises each product by the first-variant rule, stores the result
    and returns it. No result is cached for a product that does not exist. */
module Catalog {
  import opened Wrappers
  import opened CatalogTypes
  import opened RateLimit
  import opened Shopify
  import opened Cache
  import Text

  /** The cursor part of a page key: the cursor when one is given, "first" otherwise. */
  function CursorPart(cursor: Option<string>): string {
    if Truthy(cursor) then cursor.value else "first"
  }

  /** `products:<limit>:<cursor or "first">`. */
  function PageKey(limit: int, cursor: Option<string>): string {
    "products:" + Text.IntToString(limit) + ":" + CursorPart(cursor)
  }

  /** `product:<id>`. */
  function ItemKey(id: string): string {
    "product:" + id
  }

  predicate IsPageKey(k: string) {
    |k| >= 9 && k[..9] == "products:"
  }

  predicate IsItemKey(k: string) {
    |k| >= 8 && k[..8] == "product:"
  }

  /** No string is both a page key and an item key: their eighth characters differ. */
  lemma KeyKindsDisjoint(k: string)
    ensures IsPageKey(k) ==> !IsItemKey(k)
  {
    if IsPageKey(k) {
      assert k[7] == k[..9][7] == 's';
      assert k[..8][7] == k[7];
    }
  }

  /** Page keys have the page prefix and item keys the item prefix, so a page key never
      equals an item key. */
  lemma KeyShapes(limit: int, cursor: Option<string>, id: string)
    ensures IsPageKey(PageKey(limit, cursor)) && !IsItemKey(PageKey(limit, cursor))
    ensures IsItemKey(ItemKey(id)) && !IsPageKey(ItemKey(id))
    ensures PageKey(limit, cursor) != ItemKey(id)
  {
    assert PageKey(limit, cursor)[..9] == "products:";
    assert ItemKey(id)[..8] == "product:";
    KeyKindsDisjoint(PageKey(limit, cursor));
    KeyKindsDisjoint(ItemKey(id));
  }

  /** A colon-free text followed by ':' is determined by the string it starts: the first
      ':' ends it. */
  lemma SplitAtFirstColon(a: string, x: string, b: string, y: string)
    requires forall i :: 0 <= i < |a| ==> a[i] != ':'
    requires forall i :: 0 <= i < |b| ==> b[i] != ':'
    requires a + ":" + x == b + ":" + y
    ensures a == b && x == y
  {
    var u := a + ":" + x;
    assert u[|a|] == ':' && u[|b|] == ':';
    assert a == u[..|a|] == b;
    assert x == u[|a| + 1..] == y;
  }

  /** What follows the page prefix of a page key. */
  lemma PageKeyTail(a: string, x: string)
    ensures ("products:" + a + ":" + x)[9..] == a + ":" + x
  {
  }

  /** Two page keys are equal only for the same limit and the same cursor part. */
  lemma PageKeyInjective(l1: int, c1: Option<string>, l2: int, c2: Option<string>)
    requires PageKey(l1, c1) == PageKey(l2, c2)
    ensures l1 == l2
    ensures CursorPart(c1) == CursorPart(c2)
  {
    var a, b := Text.IntToString(l1), Text.IntToString(l2);
    var x, y := CursorPart(c1), CursorPart(c2);
    PageKeyTail(a, x);
    PageKeyTail(b, y);
    SplitAtFirstColon(a, x, b, y);
    Text.IntToStringInjective(l1, l2);
  }

  /** Two item keys are equal only for the same id. */
  lemma ItemKeyInjective(id1: string, id2: string)
    requires ItemKey(id1) == ItemKey(id2)
    ensures id1 == id2
  {
    assert id1 == ItemKey(id1)[8..];
    assert id2 == ItemKey(id2)[8..];
  }

  /** A request for the cursor "first", or for an empty cursor, shares the key of a request
      with no cursor. */
  lemma FirstCursorSharesKey(limit: int)
    ensures PageKey(limit, Some("first")) == PageKey(limit, None)
    ensures PageKey(limit, Some("")) == PageKey(limit, None)
  {
  }

  /** `transformProduct`: id, title and creation time copied; price and inventory from the
      first variant only, 0 when there is no first variant or its field is missing or falsy. */
  function TransformProduct(node: ShopifyProductNode): (p: Product)
    ensures p.id == node.id && p.title == node.title && p.createdAt == node.createdAt
    ensures |node.variants.edges| == 0 ==> p.price == ZeroPrice && p.inventory == 0
    ensures |node.variants.edges| > 0 ==>
      var v := node.variants.edges[0].node;
      && (p.price == if Truthy(v.price) then ParseFloat(v.price.value) else ZeroPrice)
      && (p.inventory == if v.inventoryQuantity.Some? then v.inventoryQuantity.value else 0)
  {
    var variant := if |node.variants.edges| > 0 then Some(node.variants.edges[0].node) else None;
    var price := if variant.Some? && Truthy(variant.value.price) then ParseFloat(variant.value.price.value) else ZeroPrice;
    var inventory := if variant.Some? then variant.value.inventoryQuantity.GetOr(0) else 0;
    Product(node.id, node.title, price, inventory, node.createdAt)
  }

  /** Only the first variant is observed: variants after it never change the product. */
  lemma FirstVariantOnly(node: ShopifyProductNode, others: seq<VariantEdge>)
    requires |node.variants.edges| > 0
    ensures TransformProduct(node.(variants := VariantConnection(node.variants.edges[..1] + others)))
         == TransformProduct(node)
  {
  }

  /** Each node transformed, in order. */
  function TransformAll(nodes: seq<ShopifyProductNode>): (r: seq<Product>)
    ensures |r| == |nodes|
    ensures forall i :: 0 <= i < |nodes| ==> r[i] == TransformProduct(nodes[i])
  {
    if |nodes| == 0 then [] else [TransformProduct(nodes[0])] + TransformAll(nodes[1..])
  }

  /** The response assembled from an upstream page: its products transformed in order, and
      the next cursor only when there is a next page. */
  function BuildResponse(page: ProductsPage): (r: ProductResponse)
    ensures |r.products| == |page.products|
    ensures forall i :: 0 <= i < |page.products| ==> r.products[i] == TransformProduct(page.products[i])
    ensures r.nextPage == if page.hasNextPage then page.nextCursor else None
  {
    ProductResponse(TransformAll(page.products), if page.hasNextPage then page.nextCursor else None)
  }

  /** What a miss of `getProducts` returns for the client's result. */
  function ResponseResult(fetched: Result<ProductsPage, FetchError>): Result<ProductResponse, FetchError> {
    match fetched
    case Ok(page) => Ok(BuildResponse(page))
    case Err(e) => Err(e)
  }

  /** What a miss of `getProductById` returns for the client's result. */
  function ProductResult(fetched: Result<Option<ShopifyProductNode>, FetchError>): Result<Option<Product>, FetchError> {
    match fetched
    case Ok(Some(node)) => Ok(Some(TransformProduct(node)))
    case Ok(None) => Ok(None)
    case Err(e) => Err(e)
  }

  /** Pages are stored only under page keys and products only under item keys. */
  ghost predicate WellKeyed(store: map<string, Entry>) {
    forall k :: k in store && store[k].text.Json? ==>
      (store[k].text.value.Page? ==> IsPageKey(k)) && (store[k].text.value.Item? ==> IsItemKey(k))
  }

  /** The store after a miss that fetched `value`: written under `key`, unless the wrapper
      is unusable or the write fails. */
  function StoreAfterWrite(cache: CacheService, key: string, value: CacheValue, fails: bool): map<string, Entry>
    reads cache
  {
    if cache.Usable() && !fails then cache.store[key := Entry(Json(value), DefaultTtl)] else cache.store
  }

  class ProductService {
    const client: ShopifyClient
    const cache: CacheService

    ghost predicate Valid()
      reads this, client, client.stats, cache
    {
      client.Valid() && WellKeyed(cache.store)
    }

    constructor (client: ShopifyClient, cache: CacheService)
      requires client.Valid() && WellKeyed(cache.store)
      ensures Valid()
      ensures this.client == client && this.cache == cache
    {
      this.client := client;
      this.cache := cache;
    }

    /** One page of products. `attempts` are the upstream's replies to the posts of a miss;
        `getFails` and `setFails` say whether the cache's store calls fail. */
    method GetProducts(limit: int, cursor: Option<string>, attempts: seq<Attempt<ProductsData>>,
                       getFails: bool, setFails: bool)
      returns (r: Result<ProductResponse, FetchError>)
      requires Valid()
      modifies client, client.stats, cache
      ensures Valid()
      ensures var key := PageKey(limit, cursor);
        var cached := old(cache.Fetched(key, getFails));
        var run := QueryRun(old(client.rateLimitState), ProductsRequest(limit, cursor), attempts);
        if cached.Some? then
          // a hit: the cached page, and neither the upstream nor the cache is touched
          && cached.value.Page?
          && r == Ok(cached.value.response)
          && client.rateLimitState == old(client.rateLimitState)
          && client.log == old(client.log)
          && client.stats.shopifyHistory == old(client.stats.shopifyHistory)
          && cache.store == old(cache.store)
        else
          // a miss: one query upstream, and its assembled result stored and returned
          && client.rateLimitState == run.state
          && client.log == old(client.log) + run.events
          && client.stats.shopifyHistory == old(client.stats.shopifyHistory) + run.latencies
          && r == ResponseResult(PageResult(run.outcome))
          && cache.store == if r.Ok? then old(StoreAfterWrite(cache, key, Page(r.value), setFails))
                            else old(cache.store)
      ensures client.stats.endpointHistory == old(client.stats.endpointHistory)
      ensures cache.isConnected == old(cache.isConnected) && cache.hasClient == old(cache.hasClient)
    {
      var cacheKey := PageKey(limit, cursor);
      var cached := cache.Get(cacheKey, getFails);
      if cached.Some? {
        KeyShapes(limit, cursor, "");
        KeyKindsDisjoint(cacheKey);
        return Ok(cached.value.response);
      }
      var result := client.GetProducts(limit, cursor, attempts);
      if result.Err? {
        return Err(result.error);
      }
      var products := TransformAll(result.value.products);
      var response := ProductResponse(products, if result.value.hasNextPage then result.value.nextCursor else None);
      KeyShapes(limit, cursor, "");
      cache.Set(cacheKey, Page(response), None, setFails);
      r := Ok(response);
    }

    /** The product with this id, `None` when the upstream has none (and then nothing is
        cached). */
    method GetProductById(id: string, attempts: seq<Attempt<ProductData>>, getFails: bool, setFails: bool)
      returns (r: Result<Option<Product>, FetchError>)
      requires Valid()
      modifies client, client.stats, cache
      ensures Valid()
      ensures var key := ItemKey(id);
        var cached := old(cache.Fetched(key, getFails));
        var run := QueryRun(old(client.rateLimitState), ProductRequest(id), attempts);
        if cached.Some? then
          && cached.value.Item?
          && r == Ok(Some(cached.value.product))
          && client.rateLimitState == old(client.rateLimitState)
          && client.log == old(client.log)
          && client.stats.shopifyHistory == old(client.stats.shopifyHistory)
          && cache.store == old(cache.store)
        else
          && client.rateLimitState == run.state
          && client.log == old(client.log) + run.events
          && client.stats.shopifyHistory == old(client.stats.shopifyHistory) + run.latencies
          && r == ProductResult(NodeResult(run.outcome))
          && cache.store == if r.Ok? && r.value.Some? then old(StoreAfterWrite(cache, key, Item(r.value.value), setFails))
                            else old(cache.store)
      ensures client.stats.endpointHistory == old(client.stats.endpointHistory)
      ensures cache.isConnected == old(cache.isConnected) && cache.hasClient == old(cache.hasClient)
    {
      var cacheKey := ItemKey(id);
      var cached := cache.Get(cacheKey, getFails);
      if cached.Some? {
        KeyShapes(0, None, id);
        KeyKindsDisjoint(cacheKey);
        return Ok(Some(cached.value.product));
      }
      var shopifyProduct := client.GetProductById(id, attempts);
      if shopifyProduct.Err? {
        return Err(shopifyProduct.error);
      }
      if shopifyProduct.value.None? {
        return Ok(None);
      }
      var product := TransformProduct(shopifyProduct.value.value);
      KeyShapes(0, None, id);
      cache.Set(cacheKey, Item(product), None, setFails);
      r := Ok(Some(product));
    }
  }

  /** On a usable cache whose store calls succeed, a second identical page request is
      answered from the cache with the first's result and no further upstream activity. */
  method RepeatedPageIsCached(service: ProductService, limit: int, cursor: Option<string>,
                              attempts: seq<Attempt<ProductsData>>)
    returns (first: Result<ProductResponse, FetchError>, second: Result<ProductResponse, FetchError>)
    requires service.Valid() && service.cache.Usable()
    requires service.cache.Fetched(PageKey(limit, cursor), false).None?
    modifies service.client, service.client.stats, service.cache
    ensures first.Ok? ==> second == first
    ensures first.Ok? ==>
      service.client.log == old(service.client.log)
        + QueryRun(old(service.client.rateLimitState), ProductsRequest(limit, cursor), attempts).events
  {
    first := service.GetProducts(limit, cursor, attempts, false, false);
    ghost var logAfterFirst := service.client.log;
    second := service.GetProducts(limit, cursor, attempts, false, false);
    if first.Ok? {
      assert service.client.log == logAfterFirst;
    }
  }
}
