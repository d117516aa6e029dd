/** The records exchanged between the catalog service, the upstream product API and the cache. */
module CatalogTypes {
  import opened Wrappers

  /** The price of a normalised product. The service turns the upstream price text into a
      number with `parseFloat`; the model keeps that text (`ParseFloat(text)` stands for the
      number parsed from it) and `ZeroPrice` for the literal 0 used when there is none. */
  datatype Price = ZeroPrice | ParseFloat(text: string)

  /** A normalised catalog product. */
  datatype Product = Product(
    id: string,
    title: string,
    price: Price,
    inventory: int,
    createdAt: string)

  /** One page of normalised products, with the cursor of the next page when there is one. */
  datatype ProductResponse = ProductResponse(products: seq<Product>, nextPage: Option<string>)

  /** One variant of an upstream product; either field may be missing (null) in a reply. */
  datatype VariantNode = VariantNode(price: Option<string>, inventoryQuantity: Option<int>)

  datatype VariantEdge = VariantEdge(node: VariantNode)

  /** The variants connection of an upstream product (the query asks for the first one). */
  datatype VariantConnection = VariantConnection(edges: seq<VariantEdge>)

  /** An upstream product node. */
  datatype ShopifyProductNode = ShopifyProductNode(
    id: string,
    title: string,
    createdAt: string,
    variants: VariantConnection)

  /** The throttle snapshot the upstream reports with a reply. */
  datatype ThrottleStatus = ThrottleStatus(
    maximumAvailable: int,
    currentlyAvailable: int,
    restoreRate: int)

  /** The cost block of a reply; the throttle status inside it may be missing. */
  datatype Cost = Cost(
    requestedQueryCost: int,
    actualQueryCost: int,
    throttleStatus: Option<ThrottleStatus>)

  /** The extensions block of a reply; its cost block may be missing. */
  datatype Extensions = Extensions(cost: Option<Cost>)

  /** The page information of the products connection. */
  datatype PageInfo = PageInfo(hasNextPage: bool, endCursor: Option<string>)

  datatype ProductEdge = ProductEdge(node: ShopifyProductNode)

  /** The products connection of a reply: its page information and its edges, in order. */
  datatype ProductConnection = ProductConnection(pageInfo: PageInfo, edges: seq<ProductEdge>)

  /** The `data` of a reply to the products query. */
  datatype ProductsData = ProductsData(products: ProductConnection)

  /** The `data` of a reply to the single-product query; `None` when no product has that id. */
  datatype ProductData = ProductData(product: Option<ShopifyProductNode>)

  /** The latency figures of one series. */
  datatype LatencyStats = LatencyStats(average: int, max: int, min: int)

  /** The statistics the service reports. */
  datatype ProductStats = ProductStats(
    endpointResponseTimesMs: LatencyStats,
    totalEndpointCalls: nat,
    averageShopifyCallResponseTimeMs: int,
    totalShopifyApiCalls: nat)
}
