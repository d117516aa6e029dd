/** The best-effort cache wrapper around an external key-value store. Every operation is
    gated by the connection flag, and every store failure degrades to "absent" or to a
    no-op. The store is a map from keys to entries; JSON serialisation is idealised so that
    parsing the text the service wrote gives back the value it wrote. */
module Cache {
  import opened Wrappers
  import opened CatalogTypes

  /** The configured time to live of an entry, in seconds. */
  const DefaultTtl: int := 300

  /** A value the catalog service stores: a page of products or one product. */
  datatype CacheValue = Page(response: ProductResponse) | Item(product: Product)

  /** The text held under a key: the JSON text of a value, or other text this service never
      writes (empty, or not JSON), which reads back as absent. */
  datatype StoredText = Json(value: CacheValue) | Raw(text: string)

  /** A stored entry and the time to live it was written with. The store's own expiry of
      entries is not modelled. */
  datatype Entry = Entry(text: StoredText, ttl: int)

  class CacheService {
    /** Whether a store client has been created (`client` is not null). */
    var hasClient: bool
    var isConnected: bool
    /** The contents of the external store. */
    var store: map<string, Entry>

    /** Operations reach the store only when connected and a client exists. */
    predicate Usable()
      reads this
    {
      isConnected && hasClient
    }

    /** A wrapper that is not yet connected, over a store that already holds `existing`. */
    constructor (existing: map<string, Entry>)
      ensures !hasClient && !isConnected
      ensures store == existing
    {
      hasClient := false;
      isConnected := false;
      store := existing;
    }

    /** Creates the client and connects it; `succeeds` says whether the connection attempt
        succeeds. A failure is swallowed and leaves the wrapper disconnected for good:
        no other operation sets `isConnected`. */
    method Connect(succeeds: bool)
      modifies this
      ensures hasClient
      ensures isConnected == succeeds
      ensures store == old(store)
    {
      hasClient := true;
      if succeeds {
        isConnected := true;
      } else {
        isConnected := false;
      }
    }

    /** The client's "error" event. */
    method OnError()
      requires hasClient
      modifies this
      ensures !isConnected
      ensures hasClient
      ensures store == old(store)
    {
      isConnected := false;
    }

    /** What `get(key)` yields; `fails` says whether the store call fails. */
    function Fetched(key: string, fails: bool): (r: Option<CacheValue>)
      reads this
      ensures !Usable() || fails ==> r == None
      ensures r.Some? ==> key in store && store[key].text == Json(r.value)
      ensures Usable() && !fails && key in store && store[key].text.Json? ==> r == Some(store[key].text.value)
    {
      if !Usable() || fails then None
      else if key in store then
        match store[key].text
        case Json(v) => Some(v)
        case Raw(_) => None
      else None
    }

    /** Reads `key`; absent whenever the wrapper is unusable, the key is missing, its text
        does not parse, or the store call fails. */
    method Get(key: string, fails: bool) returns (r: Option<CacheValue>)
      ensures r == Fetched(key, fails)
    {
      if !isConnected || !hasClient {
        return None;
      }
      if fails {
        return None;
      }
      if key in store && store[key].text.Json? {
        r := Some(store[key].text.value);
      } else {
        r := None;
      }
    }

    /** Writes `value` under `key` with the given time to live, the configured one when
        none is given; a no-op when unusable or when the store call fails. */
    method Set(key: string, value: CacheValue, ttl: Option<int>, fails: bool)
      modifies this
      ensures store == if old(Usable()) && !fails then old(store)[key := Entry(Json(value), ttl.GetOr(DefaultTtl))]
                       else old(store)
      ensures hasClient == old(hasClient) && isConnected == old(isConnected)
    {
      if !isConnected || !hasClient {
        return;
      }
      var seconds := if ttl.Some? then ttl.value else DefaultTtl;
      if !fails {
        store := store[key := Entry(Json(value), seconds)];
      }
    }

    /** Deletes `key`; a no-op when unusable or when the store call fails. */
    method Del(key: string, fails: bool)
      modifies this
      ensures store == if old(Usable()) && !fails then old(store) - {key} else old(store)
      ensures hasClient == old(hasClient) && isConnected == old(isConnected)
    {
      if !isConnected || !hasClient {
        return;
      }
      if !fails {
        store := store - {key};
      }
    }

    /** Closes the client, if there is one, and marks the wrapper disconnected. */
    method Disconnect()
      modifies this
      ensures hasClient == old(hasClient)
      ensures old(hasClient) ==> !isConnected
      ensures !old(hasClient) ==> isConnected == old(isConnected)
      ensures store == old(store)
    {
      if hasClient {
        isConnected := false;
      }
    }
  }

  /** On a usable wrapper whose store calls succeed, a value written is read back. */
  method SetThenGet(cache: CacheService, key: string, value: CacheValue) returns (r: Option<CacheValue>)
    requires cache.Usable()
    modifies cache
    ensures r == Some(value)
    ensures cache.store == old(cache.store)[key := Entry(Json(value), DefaultTtl)]
  {
    cache.Set(key, value, None, false);
    r := cache.Get(key, false);
  }

  /** Once disconnected, reads are absent and writes change nothing. */
  method DisconnectedIsInert(cache: CacheService, key: string, value: CacheValue) returns (r: Option<CacheValue>)
    requires cache.hasClient
    modifies cache
    ensures r == None
    ensures cache.store == old(cache.store)
    ensures cache.hasClient && !cache.isConnected
  {
    cache.Disconnect();
    cache.Set(key, value, None, false);
    cache.Del(key, false);
    r := cache.Get(key, false);
  }
}
