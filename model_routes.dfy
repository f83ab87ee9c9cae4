/** What the two model-list routes share: a module-level cache `Map` from a
    provider name to the last list fetched and when, kept for five minutes,
    and the ladder of answers a `GET` goes down. The routes differ only in
    their texts, the upstream they call and the list transform. */
module ModelRoutes {
  import opened Common
  import M = JsMap
  import opened Settings

  /** `CACHE_TTL`, in milliseconds. */
  const CacheTtl: int := 5 * 60 * 1000

  /** One model as the routes list it. */
  datatype ListedModel = ListedModel(id: string, name: Json, provider: Provider)

  datatype CacheEntry = CacheEntry(data: seq<ListedModel>, timestamp: int)

  /** What the upstream models request comes back with:
      `Unreachable`: `fetch` rejects;
      `NotOk`: a response whose `ok` is false, with its body text, or `None`
      when reading the text throws;
      `Ok`: an OK response with its body parsed as JSON, or `None` when the
      body is not JSON. */
  datatype Upstream =
    | Unreachable
    | NotOk(status: int, text: Option<string>)
    | Ok(body: Option<Json>)

  /** The JSON a route answers: its HTTP status, the `models` field and the
      `error` field when there is one. */
  datatype RouteResponse = RouteResponse(status: int, models: seq<ListedModel>, error: Option<string>)

  /** The texts of one route. */
  datatype Labels = Labels(cacheKey: string, noKey: string, invalidKey: string, apiError: string, failed: string)

  /** `getCachedModels(provider)` at time `now`. */
  function Cached(entries: M.Entries<CacheEntry>, provider: string, now: int): Option<seq<ListedModel>>
  {
    var c := M.Get(entries, provider);
    if c.Some? && now - c.value.timestamp < CacheTtl then Some(c.value.data) else None
  }

  /** `setCachedModels(provider, data)` at time `now`. */
  function CacheSet(entries: M.Entries<CacheEntry>, provider: string, data: seq<ListedModel>, now: int): M.Entries<CacheEntry>
  {
    M.Set(entries, provider, CacheEntry(data, now))
  }

  /** `clientApiKey || process.env.…`: the client's key when it is non-empty,
      the environment's otherwise. */
  function ChosenKey(clientKey: Option<string>, envKey: Option<string>): (r: Option<string>)
    ensures Present(clientKey) ==> r == clientKey
    ensures !Present(clientKey) ==> r == envKey
    ensures Present(r) <==> Present(clientKey) || Present(envKey)
  {
    if Present(clientKey) then clientKey else envKey
  }

  function Failure(labels: Labels): RouteResponse
  {
    RouteResponse(500, [], Some(labels.failed))
  }

  /** One `GET`: no key, then the cache, then the upstream, whose failures
      each have their answer; only a list that was fetched and transformed
      is cached, stamped `doneAt`. Returns the answer and the new cache. */
  function Serve(entries: M.Entries<CacheEntry>, labels: Labels, apiKey: Option<string>, now: int,
                 fetch: string -> Upstream, transform: Json -> Option<seq<ListedModel>>, doneAt: int)
    : (RouteResponse, M.Entries<CacheEntry>)
  {
    if !Present(apiKey) then (RouteResponse(400, [], Some(labels.noKey)), entries)
    else
      var cached := Cached(entries, labels.cacheKey, now);
      if cached.Some? then (RouteResponse(200, cached.value, None), entries)
      else
        match fetch(apiKey.value)
        case Unreachable => (Failure(labels), entries)
        case NotOk(status, text) =>
          if text.None? then (Failure(labels), entries)
          else if status == 401 then (RouteResponse(401, [], Some(labels.invalidKey)), entries)
          else (RouteResponse(status, [], Some(labels.apiError + IntToString(status) + " " + text.value)), entries)
        case Ok(body) =>
          var models := if body.None? then None else transform(body.value);
          if models.None? then (Failure(labels), entries)
          else (RouteResponse(200, models.value, None), CacheSet(entries, labels.cacheKey, models.value, doneAt))
  }

  // ---------------------------------------------------------------------------
  // Properties
  // ---------------------------------------------------------------------------

  /** A list stored at time `t` is served while less than five minutes have
      passed, and not from then on; the other providers' entries answer as
      before. */
  lemma CachedAfterSet(entries: M.Entries<CacheEntry>, provider: string, data: seq<ListedModel>, t: int, now: int, other: string)
    requires M.Distinct(entries)
    ensures M.Distinct(CacheSet(entries, provider, data, t))
    ensures Cached(CacheSet(entries, provider, data, t), provider, now) == if now < t + 300000 then Some(data) else None
    ensures other != provider ==> Cached(CacheSet(entries, provider, data, t), other, now) == Cached(entries, other, now)
  {
    M.SetGet(entries, provider, CacheEntry(data, t), provider);
    M.SetGet(entries, provider, CacheEntry(data, t), other);
  }

  /** The cache is served strictly before the entry turns five minutes old:
      an entry exactly that old is a miss, as is an empty cache. */
  lemma CacheExpiry(data: seq<ListedModel>, t: int, provider: string)
    ensures Cached([(provider, CacheEntry(data, t))], provider, t + CacheTtl - 1) == Some(data)
    ensures Cached([(provider, CacheEntry(data, t))], provider, t + CacheTtl) == None
    ensures Cached([], provider, t) == None
  {
    M.IndexOfDistinct([(provider, CacheEntry(data, t))], provider, 0);
  }

  /** Without a key the route answers 400 with no models before looking at
      the cache, whatever it holds, and the cache stays as it was. */
  lemma NoKeyBeforeCache(entries: M.Entries<CacheEntry>, labels: Labels, apiKey: Option<string>, now: int,
                         fetch: string -> Upstream, transform: Json -> Option<seq<ListedModel>>, doneAt: int)
    requires !Present(apiKey)
    ensures Serve(entries, labels, apiKey, now, fetch, transform, doneAt) == (RouteResponse(400, [], Some(labels.noKey)), entries)
  {
  }

  /** The cache is keyed by the provider alone: while it is fresh, every key
      gets the same cached list, and the upstream is not asked. */
  lemma CacheHitIgnoresKey(entries: M.Entries<CacheEntry>, labels: Labels, key1: string, key2: string, now: int,
                           fetch: string -> Upstream, transform: Json -> Option<seq<ListedModel>>, doneAt: int)
    requires key1 != "" && key2 != ""
    requires Cached(entries, labels.cacheKey, now).Some?
    ensures Serve(entries, labels, Some(key1), now, fetch, transform, doneAt)
      == Serve(entries, labels, Some(key2), now, fetch, transform, doneAt)
      == (RouteResponse(200, Cached(entries, labels.cacheKey, now).value, None), entries)
  {
  }

  /** The cache changes only when a list was fetched and transformed, and
      then holds exactly the list answered, stamped with the time the fetch
      completed; every answer that is not 200 carries no models. */
  lemma CacheWrittenOnSuccess(entries: M.Entries<CacheEntry>, labels: Labels, apiKey: Option<string>, now: int,
                              fetch: string -> Upstream, transform: Json -> Option<seq<ListedModel>>, doneAt: int)
    ensures var (resp, after) := Serve(entries, labels, apiKey, now, fetch, transform, doneAt);
      (after == entries || (resp.status == 200 && resp.error.None? && after == CacheSet(entries, labels.cacheKey, resp.models, doneAt)))
      && (after != entries ==>
            (Present(apiKey) && fetch(apiKey.value).Ok? && fetch(apiKey.value).body.Some?
             && transform(fetch(apiKey.value).body.value) == Some(resp.models)))
      && (resp.status != 200 ==> resp.models == [] && resp.error.Some?)
  {
  }

  /** A fetched list that transforms is answered and cached; it is then what
      the next request within five minutes gets, for any key. */
  lemma FetchedListIsServedNext(entries: M.Entries<CacheEntry>, labels: Labels, key: string, now: int,
                                fetch: string -> Upstream, transform: Json -> Option<seq<ListedModel>>, doneAt: int,
                                key2: string, later: int, fetch2: string -> Upstream)
    requires M.Distinct(entries) && key != "" && key2 != ""
    requires Cached(entries, labels.cacheKey, now).None?
    requires fetch(key).Ok? && fetch(key).body.Some? && transform(fetch(key).body.value).Some?
    requires later < doneAt + CacheTtl
    ensures var (resp, after) := Serve(entries, labels, Some(key), now, fetch, transform, doneAt);
      resp == RouteResponse(200, transform(fetch(key).body.value).value, None)
      && Serve(after, labels, Some(key2), later, fetch2, transform, later).0 == resp
  {
    var models := transform(fetch(key).body.value).value;
    CachedAfterSet(entries, labels.cacheKey, models, doneAt, later, labels.cacheKey);
  }

  /** The upstream's 401 becomes the route's own 401 with the invalid-key
      text; any other failing status is passed through with the upstream's
      status and body text. */
  lemma UpstreamErrors(entries: M.Entries<CacheEntry>, labels: Labels, key: string, now: int,
                       fetch: string -> Upstream, transform: Json -> Option<seq<ListedModel>>, doneAt: int)
    requires key != "" && Cached(entries, labels.cacheKey, now).None?
    requires fetch(key).NotOk? && fetch(key).text.Some?
    ensures var resp := Serve(entries, labels, Some(key), now, fetch, transform, doneAt).0;
      (fetch(key).status == 401 ==> resp == RouteResponse(401, [], Some(labels.invalidKey)))
      && (fetch(key).status != 401 ==>
            (resp.status == fetch(key).status
             && resp.error == Some(labels.apiError + IntToString(fetch(key).status) + " " + fetch(key).text.value)))
  {
  }

  // ---------------------------------------------------------------------------
  // The module-level cache
  // ---------------------------------------------------------------------------

  class ModelCache {
    var entries: M.Entries<CacheEntry>

    /** One entry per provider, as a `Map` keeps it. */
    predicate Valid()
      reads this
    {
      M.Distinct(entries)
    }

    constructor ()
      ensures entries == [] && Valid()
    {
      entries := [];
    }

    method GetCachedModels(provider: string, now: int) returns (r: Option<seq<ListedModel>>)
      ensures r == Cached(entries, provider, now)
    {
      var cached := M.Get(entries, provider);
      if cached.Some? && now - cached.value.timestamp < CacheTtl {
        return Some(cached.value.data);
      }
      return None;
    }

    method SetCachedModels(provider: string, data: seq<ListedModel>, now: int)
      requires Valid()
      modifies this
      ensures entries == CacheSet(old(entries), provider, data, now)
      ensures Valid()
    {
      CachedAfterSet(entries, provider, data, now, now, provider);
      entries := M.Set(entries, provider, CacheEntry(data, now));
    }
  }
}
