/** The remote policy client: a stale-while-revalidate cache of the policy
    document in the page's local storage under three keys (document, entity
    tag, time of last confirmation), refreshed by a conditional GET in the
    sense of RFC 9110 (section 8.8.3 entity tags, section 13.1.2
    If-None-Match, section 15.4.5 304 Not Modified). The clock and the
    network's answer are inputs; `JSON.parse`/`JSON.stringify` are a `Codec`. */
module Remote {
  import opened JsValue
  import opened Types
  import opened Text
  import opened Net
  import opened Schema

  datatype AuthHeader = AuthHeader(header: string, token: string)

  /** `RemoteConfigOptions` (the `debug` flag only switches logging). */
  datatype Options = Options(
    url: Url, storageKey: string, refreshSec: int, allowDomains: seq<string>,
    publicKey: Option<string>, auth: Option<AuthHeader>)

  /** A GET request to the configured URL. */
  datatype Request = Request(headers: map<string, string>, timeoutMs: int)

  /** How the request ends: no response at all (network error or timeout), or
      a response with its status, body text and `etag` header. */
  datatype NetResult = NetworkFailure | Response(status: int, body: string, etag: Option<string>)

  /** What `fetchFromNetwork` yields: a new document with the entity tag to
      store, `null` for 304, or a throw. */
  datatype NetOutcome = Fresh(config: Json, etag: string) | NotModified | Unusable

  datatype CacheKeys = CacheKeys(data: string, etag: string, ts: string)

  /** The constructor's three keys. */
  function KeysFor(storageKey: string): (k: CacheKeys)
    ensures k.data != k.etag && k.etag != k.ts && k.data != k.ts
  {
    var k := CacheKeys(storageKey + ":rc:data", storageKey + ":rc:etag", storageKey + ":rc:ts");
    assert k.data[|storageKey| + 4] == 'd' && k.etag[|storageKey| + 4] == 'e' && k.ts[|storageKey| + 4] == 't';
    k
  }

  /** `getStoredJSON` then `getItem` twice: an entry exists only when the
      stored document parses to a truthy value and the timestamp text is
      non-empty and starts with an integer; a missing entity tag reads as "". */
  function CachedEntry(store: map<string, string>, keys: CacheKeys, codec: Codec): (r: Option<CacheEntry>)
    ensures r.Some? ==> keys.data in store && keys.ts in store
    ensures r.Some? ==> codec.parse(store[keys.data]) == Some(r.value.data) && Truthy(r.value.data)
    ensures r.Some? ==> ParseInt(store[keys.ts]) == Some(r.value.timestamp)
    ensures r.Some? ==> r.value.etag == (if keys.etag in store then store[keys.etag] else "")
  {
    if keys.data !in store || store[keys.data] == "" then None
    else
      var parsed := codec.parse(store[keys.data]);
      if parsed.None? || !Truthy(parsed.value) then None
      else if keys.ts !in store || store[keys.ts] == "" then None
      else match ParseInt(store[keys.ts])
        case None => None
        case Some(t) =>
          var etag := if keys.etag in store then store[keys.etag] else "";
          Some(CacheEntry(parsed.value, etag, t))
  }

  /** `cacheConfig(config, etag)` at time `at`. */
  function StoreEntry(store: map<string, string>, keys: CacheKeys, codec: Codec, config: Json, etag: string, at: int): (r: map<string, string>)
    ensures r.Keys == store.Keys + {keys.data, keys.etag, keys.ts}
    ensures r[keys.ts] == IntToString(at)
    ensures forall k :: k in store && k != keys.data && k != keys.etag && k != keys.ts ==> r[k] == store[k]
  {
    store[keys.data := codec.stringify(config)][keys.etag := etag][keys.ts := IntToString(at)]
  }

  /** The headers of the conditional request: always `Accept`, `If-None-Match`
      only for a non-empty cached entity tag, then the configured auth header. */
  function BuildRequest(o: Options, cachedEtag: Option<string>): (r: Request)
    ensures r.timeoutMs == 10000
  {
    var h := map["Accept" := "application/json"];
    var h := if cachedEtag.Some? && cachedEtag.value != "" then h["If-None-Match" := cachedEtag.value] else h;
    var h := if o.auth.Some? then h[o.auth.value.header := o.auth.value.token] else h;
    Request(h, 10000)
  }

  /** `fetchFromNetwork` from the response on: 304 first, any other status
      outside 200-299 throws, then the body must parse and pass the schema. */
  function NetworkSpec(net: NetResult, codec: Codec): (r: NetOutcome)
    ensures r.Fresh? ==> ValidateConfig(r.config).None?
    ensures r.NotModified? <==> net.Response? && net.status == 304
  {
    match net
    case NetworkFailure => Unusable
    case Response(status, body, etag) =>
      if status == 304 then NotModified
      else if !(200 <= status <= 299) then Unusable
      else match codec.parse(body)
        case None => Unusable
        case Some(config) =>
          if ValidateConfig(config).Some? then Unusable
          else Fresh(config, if etag.Some? then etag.value else "")
  }

  /** One `fetch()`: what it returns, the storage it leaves, and the request
      it sends, if any. */
  datatype Fetched = Fetched(result: Option<Json>, store: map<string, string>, request: Option<Request>)

  /** `fetch()` checked at time `now`; the answer arrives at `respondedAt`,
      which is when a fresh document or a 304 is recorded. */
  function FetchSpec(o: Options, keys: CacheKeys, codec: Codec, store: map<string, string>, now: int, respondedAt: int, net: NetResult): (r: Fetched)
    ensures r.request.Some? ==> CheckConfigUrl(o.url, o.allowDomains).None?
    ensures r.result.Some? ==> Truthy(r.result.value)
  {
    if CheckConfigUrl(o.url, o.allowDomains).Some? then Fetched(None, store, None)
    else
      var cached := CachedEntry(store, keys, codec);
      if cached.Some? && now - cached.value.timestamp < o.refreshSec * 1000 then
        Fetched(Some(cached.value.data), store, None)
      else
        var request := BuildRequest(o, if cached.Some? then Some(cached.value.etag) else None);
        match NetworkSpec(net, codec)
        case Fresh(config, etag) =>
          Fetched(Some(config), StoreEntry(store, keys, codec, config, etag, respondedAt), Some(request))
        case NotModified =>
          if cached.Some? then Fetched(Some(cached.value.data), store[keys.ts := IntToString(respondedAt)], Some(request))
          else Fetched(None, store, Some(request))
        case Unusable =>
          Fetched(if cached.Some? then Some(cached.value.data) else None, store, Some(request))
  }

  class RemoteConfig {
    const options: Options
    const codec: Codec
    const cacheKeyData: string
    const cacheKeyEtag: string
    const cacheKeyTimestamp: string
    /** The page's local storage. */
    var storage: map<string, string>
    /** Every request sent, in order. */
    var requests: seq<Request>

    function Keys(): CacheKeys {
      CacheKeys(cacheKeyData, cacheKeyEtag, cacheKeyTimestamp)
    }

    constructor (options: Options, codec: Codec, storage: map<string, string>)
      ensures this.options == options && this.codec == codec
      ensures Keys() == KeysFor(options.storageKey)
      ensures this.storage == storage && requests == []
    {
      this.options := options;
      this.codec := codec;
      cacheKeyData := options.storageKey + ":rc:data";
      cacheKeyEtag := options.storageKey + ":rc:etag";
      cacheKeyTimestamp := options.storageKey + ":rc:ts";
      this.storage := storage;
      requests := [];
    }

    /** `getCachedConfig()` */
    function GetCachedConfig(): Option<CacheEntry>
      reads this
    {
      CachedEntry(storage, Keys(), codec)
    }

    /** `cacheConfig(config, etag)` at time `at`: all three keys are written. */
    method CacheConfig(config: Json, etag: string, at: int)
      modifies this
      ensures storage == StoreEntry(old(storage), Keys(), codec, config, etag, at)
      ensures requests == old(requests)
    {
      storage := storage[cacheKeyData := codec.stringify(config)];
      storage := storage[cacheKeyEtag := etag];
      storage := storage[cacheKeyTimestamp := IntToString(at)];
    }

    /** `updateCacheTimestamp()` at time `at`: only the timestamp key is written. */
    method UpdateCacheTimestamp(at: int)
      modifies this
      ensures storage == old(storage)[cacheKeyTimestamp := IntToString(at)]
      ensures requests == old(requests)
    {
      storage := storage[cacheKeyTimestamp := IntToString(at)];
    }

    /** `clearCache()` */
    method ClearCache()
      modifies this
      ensures storage == old(storage) - {cacheKeyData, cacheKeyEtag, cacheKeyTimestamp}
      ensures requests == old(requests)
    {
      storage := storage - {cacheKeyData};
      storage := storage - {cacheKeyEtag};
      storage := storage - {cacheKeyTimestamp};
    }

    /** `fetchFromNetwork(etag)`: sends the request, and on a valid new document
        stores it (at `respondedAt`) before returning it. */
    method FetchFromNetwork(etag: Option<string>, respondedAt: int, net: NetResult) returns (r: NetOutcome)
      modifies this
      ensures r == NetworkSpec(net, codec)
      ensures requests == old(requests) + [BuildRequest(options, etag)]
      ensures r.Fresh? ==> storage == StoreEntry(old(storage), Keys(), codec, r.config, r.etag, respondedAt)
      ensures !r.Fresh? ==> storage == old(storage)
    {
      requests := requests + [BuildRequest(options, etag)];
      r := NetworkSpec(net, codec);
      if r.Fresh? {
        CacheConfig(r.config, r.etag, respondedAt);
      }
    }

    /** `fetch()` */
    method Fetch(now: int, respondedAt: int, net: NetResult) returns (r: Option<Json>)
      modifies this
      ensures var f := FetchSpec(options, Keys(), codec, old(storage), now, respondedAt, net);
        r == f.result && storage == f.store
        && requests == old(requests) + (if f.request.Some? then [f.request.value] else [])
    {
      if CheckConfigUrl(options.url, options.allowDomains).Some? {
        return None;
      }
      var cached := GetCachedConfig();
      if cached.Some? && now - cached.value.timestamp < options.refreshSec * 1000 {
        return Some(cached.value.data);
      }
      var outcome := FetchFromNetwork(if cached.Some? then Some(cached.value.etag) else None, respondedAt, net);
      if outcome.Fresh? {
        return Some(outcome.config);
      }
      if outcome.NotModified? && cached.Some? {
        UpdateCacheTimestamp(respondedAt);
        return Some(cached.value.data);
      }
      if outcome.Unusable? && cached.Some? {
        return Some(cached.value.data);
      }
      r := None;
    }
  }

  // ----- properties -----

  /** What `cacheConfig` writes, `getCachedConfig` reads back: the same
      document, entity tag and time, whatever else the storage holds. */
  lemma CacheRoundTrip(store: map<string, string>, keys: CacheKeys, codec: Codec, config: Json, etag: string, at: int)
    requires keys.data != keys.etag && keys.etag != keys.ts && keys.data != keys.ts
    requires Faithful(codec) && Truthy(config)
    ensures CachedEntry(StoreEntry(store, keys, codec, config, etag, at), keys, codec) == Some(CacheEntry(config, etag, at))
  {
    var s := StoreEntry(store, keys, codec, config, etag, at);
    assert s[keys.data] == codec.stringify(config);
    assert s[keys.ts] == IntToString(at);
    ParseIntOfIntToString(at);
    assert IntToString(at) != [] by {
      if at < 0 {} else {}
    }
  }

  /** A URL that is not HTTPS, or whose host is off a non-empty allow-list,
      yields nothing and sends nothing, even when a fresh cached copy exists;
      the storage is untouched. */
  lemma BadUrlFetchesNothing(o: Options, keys: CacheKeys, codec: Codec, store: map<string, string>, now: int, respondedAt: int, net: NetResult)
    requires CheckConfigUrl(o.url, o.allowDomains).Some?
    ensures FetchSpec(o, keys, codec, store, now, respondedAt, net) == Fetched(None, store, None)
  {
  }

  /** A cached copy younger than `refreshSec` seconds is returned as it is,
      with no request and no storage write. */
  lemma FreshCacheShortCircuits(o: Options, keys: CacheKeys, codec: Codec, store: map<string, string>, now: int, respondedAt: int, net: NetResult)
    requires CheckConfigUrl(o.url, o.allowDomains).None?
    requires CachedEntry(store, keys, codec).Some?
    requires now - CachedEntry(store, keys, codec).value.timestamp < o.refreshSec * 1000
    ensures FetchSpec(o, keys, codec, store, now, respondedAt, net) == Fetched(Some(CachedEntry(store, keys, codec).value.data), store, None)
  {
  }

  /** With `refreshSec` 0 (or less) every fetch at or after the cached time
      revalidates over the network. */
  lemma ZeroRefreshAlwaysRevalidates(o: Options, keys: CacheKeys, codec: Codec, store: map<string, string>, now: int, respondedAt: int, net: NetResult)
    requires CheckConfigUrl(o.url, o.allowDomains).None? && o.refreshSec <= 0
    requires CachedEntry(store, keys, codec).None? || CachedEntry(store, keys, codec).value.timestamp <= now
    ensures FetchSpec(o, keys, codec, store, now, respondedAt, net).request.Some?
  {
  }

  /** The request carries `If-None-Match` exactly when a cached entry with a
      non-empty entity tag exists, and then carries that tag (unless the auth
      header has that very name). */
  lemma ConditionalOnlyWithEtag(o: Options, keys: CacheKeys, codec: Codec, store: map<string, string>, now: int, respondedAt: int, net: NetResult)
    requires o.auth.None? || o.auth.value.header != "If-None-Match"
    requires FetchSpec(o, keys, codec, store, now, respondedAt, net).request.Some?
    ensures var req := FetchSpec(o, keys, codec, store, now, respondedAt, net).request.value;
      var cached := CachedEntry(store, keys, codec);
      ("If-None-Match" in req.headers <==> cached.Some? && cached.value.etag != "")
      && ("If-None-Match" in req.headers ==> req.headers["If-None-Match"] == cached.value.etag)
  {
  }

  /** 304 Not Modified: with a cached entry, its document is returned and only
      the timestamp key is rewritten; without one, nothing is returned and
      nothing is written. */
  lemma NotModifiedRefreshesTimestampOnly(o: Options, keys: CacheKeys, codec: Codec, store: map<string, string>, now: int, respondedAt: int, body: string, etag: Option<string>)
    requires FetchSpec(o, keys, codec, store, now, respondedAt, Response(304, body, etag)).request.Some?
    ensures var f := FetchSpec(o, keys, codec, store, now, respondedAt, Response(304, body, etag));
      var cached := CachedEntry(store, keys, codec);
      if cached.Some? then f.result == Some(cached.value.data) && f.store == store[keys.ts := IntToString(respondedAt)]
      else f.result.None? && f.store == store
  {
  }

  /** Any failure (no response, a status outside 200-299 other than 304, a
      body that does not parse or fails the schema) falls back to the cached
      document, stale or not, or to nothing, and leaves the storage alone. */
  lemma FailureServesStale(o: Options, keys: CacheKeys, codec: Codec, store: map<string, string>, now: int, respondedAt: int, net: NetResult)
    requires NetworkSpec(net, codec).Unusable?
    ensures var f := FetchSpec(o, keys, codec, store, now, respondedAt, net);
      var cached := CachedEntry(store, keys, codec);
      f.store == store
      && (f.request.Some? ==> f.result == (if cached.Some? then Some(cached.value.data) else None))
  {
  }

  /** A valid new document is returned and overwrites all three keys; read
      back, the cache holds that document, its entity tag ("" when the
      response had none) and the response time. */
  lemma FreshDocumentIsCached(o: Options, codec: Codec, store: map<string, string>, now: int, respondedAt: int, net: NetResult)
    requires Faithful(codec)
    requires FetchSpec(o, KeysFor(o.storageKey), codec, store, now, respondedAt, net).request.Some?
    requires NetworkSpec(net, codec).Fresh?
    ensures var f := FetchSpec(o, KeysFor(o.storageKey), codec, store, now, respondedAt, net);
      f.result == Some(NetworkSpec(net, codec).config)
      && CachedEntry(f.store, KeysFor(o.storageKey), codec)
         == Some(CacheEntry(NetworkSpec(net, codec).config, if net.etag.Some? then net.etag.value else "", respondedAt))
  {
    var keys := KeysFor(o.storageKey);
    var out := NetworkSpec(net, codec);
    CacheRoundTrip(store, keys, codec, out.config, out.etag, respondedAt);
  }

  /** Stale-while-revalidate end to end: after a fetch that stored a new
      document, a second fetch less than `refreshSec` seconds later returns
      that document without sending anything. */
  lemma SecondFetchServedFromCache(o: Options, codec: Codec, store: map<string, string>, now: int, respondedAt: int, net: NetResult, later: int, net2: NetResult, respondedAt2: int)
    requires Faithful(codec)
    requires FetchSpec(o, KeysFor(o.storageKey), codec, store, now, respondedAt, net).request.Some?
    requires NetworkSpec(net, codec).Fresh?
    requires later - respondedAt < o.refreshSec * 1000
    ensures var keys := KeysFor(o.storageKey);
      var f := FetchSpec(o, keys, codec, store, now, respondedAt, net);
      FetchSpec(o, keys, codec, f.store, later, respondedAt2, net2) == Fetched(f.result, f.store, None)
  {
    FreshDocumentIsCached(o, codec, store, now, respondedAt, net);
  }

  /** After `clearCache` no entry is cached, so the next fetch with an
      acceptable URL goes to the network, unconditionally. */
  lemma ClearedCacheRevalidates(o: Options, codec: Codec, store: map<string, string>, now: int, respondedAt: int, net: NetResult)
    requires CheckConfigUrl(o.url, o.allowDomains).None?
    requires o.auth.None?
    ensures var keys := KeysFor(o.storageKey);
      var cleared := store - {keys.data, keys.etag, keys.ts};
      CachedEntry(cleared, keys, codec).None?
      && FetchSpec(o, keys, codec, cleared, now, respondedAt, net).request == Some(Request(map["Accept" := "application/json"], 10000))
  {
  }
}
