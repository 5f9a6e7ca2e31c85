/** The service worker: a network-first fetch handler that keeps a copy of
    every non-API response in the cache "weather-app-v2" and answers from the
    caches (or with a 503) when the network fails, an activate handler that
    deletes every other cache, and an install handler that pre-caches the
    app shell and never fails. The browser's CacheStorage is a class whose
    methods change its caches in place; the network is an input. */
module ServiceWorker {
  import opened JsText

  const CacheName: string := "weather-app-v2"

  /** The app shell, relative to the worker's own URL. */
  const PrecachePaths: seq<string> := ["./", "./index.html", "./app.js", "./manifest.json"]

  const OfflineBody: string := "Offline - No cached data available"

  datatype Request = Request(verb: string, url: string)

  datatype Response = Response(status: nat, statusText: string, contentType: Option<string>, body: string)

  datatype NetworkResult = NetworkError | Fetched(response: Response)

  /** What the fetch handler does with an event: leave it to the browser,
      or answer it with a response. */
  datatype FetchDecision = NotIntercepted | RespondWith(response: Response)

  /** `url.startsWith('http')`: the requests the handler intercepts. */
  predicate IsHttp(url: string) {
    StartsWith(url, "http")
  }

  /** The intercepted requests are those whose first four characters are
      "http": "https:" URLs too, but also any other scheme that begins so. */
  lemma HttpSchemeSpelling(url: string)
    ensures IsHttp(url) <==> |url| >= 4 && url[0] == 'h' && url[1] == 't' && url[2] == 't' && url[3] == 'p'
  {
    if |url| >= 4 {
      var w := url[..4];
      assert w[0] == url[0] && w[1] == url[1] && w[2] == url[2] && w[3] == url[3];
      if url[0] == 'h' && url[1] == 't' && url[2] == 't' && url[3] == 'p' {
        assert w == "http";
      }
    }
  }

  /** The requests whose responses are never cached: one of the three
      weather hosts occurs somewhere in the URL text. */
  predicate IsApiUrl(url: string): (r: bool)
    ensures r <==> exists i :: OccursAt(url, "weather.gc.ca", i) || OccursAt(url, "openweathermap.org", i)
                              || OccursAt(url, "allorigins.win", i)
  {
    IncludesIffOccurs(url, "weather.gc.ca");
    IncludesIffOccurs(url, "openweathermap.org");
    IncludesIffOccurs(url, "allorigins.win");
    Includes(url, "weather.gc.ca") || Includes(url, "openweathermap.org") || Includes(url, "allorigins.win")
  }

  const OfflineResponse: Response := Response(503, "Service Unavailable", Some("text/plain"), OfflineBody)

  /** The answer when the network fails: the cached response, if any. */
  function Fallback(cached: Option<Response>): (r: Response)
    ensures cached.Some? ==> r == cached.value
    ensures cached.None? ==> r.status == 503 && r.contentType == Some("text/plain") && r.body == OfflineBody
  {
    match cached
    case Some(response) => response
    case None => OfflineResponse
  }

  /** `cache.put` stores only GET requests over http(s) with a response other
      than 206 Partial Content; it rejects every other pair. */
  predicate Cacheable(request: Request, response: Response) {
    && request.verb == "GET"
    && (StartsWith(request.url, "http:") || StartsWith(request.url, "https:"))
    && response.status != 206
  }

  /** The cache `name` holds an entry for `url`. */
  predicate Holds(stores: map<string, map<string, Response>>, name: string, url: string) {
    name in stores && url in stores[name]
  }

  predicate Distinct(names: seq<string>) {
    forall i, j :: 0 <= i < j < |names| ==> names[i] != names[j]
  }

  /** `caches.match` for a GET request: the entry of the first cache, in
      creation order, that holds the URL. */
  function Lookup(names: seq<string>, stores: map<string, map<string, Response>>, url: string): (r: Option<Response>)
    ensures r.None? <==> forall k :: 0 <= k < |names| ==> !Holds(stores, names[k], url)
    ensures r.Some? ==>
              exists k :: 0 <= k < |names| && Holds(stores, names[k], url) && r.value == stores[names[k]][url]
                          && forall j :: 0 <= j < k ==> !Holds(stores, names[j], url)
  {
    if names == [] then None
    else if Holds(stores, names[0], url) then
      Some(stores[names[0]][url])
    else
      var r := Lookup(names[1..], stores, url);
      assert forall k :: 1 <= k < |names| ==> names[1..][k - 1] == names[k];
      if r.Some? then
        var k :| 0 <= k < |names[1..]| && Holds(stores, names[1..][k], url) && r.value == stores[names[1..][k]][url]
                 && forall j :: 0 <= j < k ==> !Holds(stores, names[1..][j], url);
        assert names[k + 1] == names[1..][k];
        assert forall j :: 0 <= j < k + 1 ==> !Holds(stores, names[j], url);
        r
      else r
  }

  /** `names` without `name`, in the same order. */
  function Without(names: seq<string>, name: string): (r: seq<string>)
    ensures forall x :: x in r <==> x in names && x != name
    ensures Distinct(names) ==> Distinct(r)
  {
    if names == [] then []
    else
      var rest := Without(names[1..], name);
      if names[0] == name then rest
      else
        assert Distinct(names) ==> names[0] !in names[1..];
        [names[0]] + rest
  }

  /** `x` occurs in `names` at an earlier position than `y`. */
  predicate Precedes(names: seq<string>, x: string, y: string) {
    exists i, j :: 0 <= i < j < |names| && names[i] == x && names[j] == y
  }

  /** `Without` keeps the relative order of the names it keeps: any two of
      its elements appear in the same order in the original list. */
  lemma {:induction false} WithoutKeepsOrder(names: seq<string>, name: string)
    ensures forall i, j :: 0 <= i < j < |Without(names, name)| ==>
      Precedes(names, Without(names, name)[i], Without(names, name)[j])
  {
    if names != [] {
      var tail := names[1..];
      var rest := Without(tail, name);
      var r := Without(names, name);
      WithoutKeepsOrder(tail, name);
      forall i, j | 0 <= i < j < |r|
        ensures Precedes(names, r[i], r[j])
      {
        if names[0] == name {
          assert r == rest && 0 <= i < j < |rest|;
          assert Precedes(tail, rest[i], rest[j]);
          var a, b :| 0 <= a < b < |tail| && tail[a] == rest[i] && tail[b] == rest[j];
          assert names[a + 1] == tail[a] && names[b + 1] == tail[b];
        } else if i == 0 {
          assert r == [names[0]] + rest;
          assert r[j] == rest[j - 1] && rest[j - 1] in rest;
          var b :| 0 <= b < |tail| && tail[b] == r[j];
          assert names[0] == r[0] && names[b + 1] == tail[b];
        } else {
          assert r == [names[0]] + rest;
          assert r[i] == rest[i - 1] && r[j] == rest[j - 1];
          assert 0 <= i - 1 < j - 1 < |rest|;
          assert Precedes(tail, rest[i - 1], rest[j - 1]);
          var a, b :| 0 <= a < b < |tail| && tail[a] == rest[i - 1] && tail[b] == rest[j - 1];
          assert names[a + 1] == tail[a] && names[b + 1] == tail[b];
        }
      }
    }
  }

  /** The entries of cache `name`, empty when it does not exist yet. */
  function Opened(stores: map<string, map<string, Response>>, name: string): map<string, Response> {
    if name in stores then stores[name] else map[]
  }

  /** The cache contents after `cache.put(request, response)`. */
  function PutResult(cache: map<string, Response>, request: Request, response: Response): map<string, Response> {
    if Cacheable(request, response) then cache[request.url := response] else cache
  }

  class CacheStorage {
    /** `caches.keys()`, in creation order. */
    var names: seq<string>
    /** Each cache's entries, keyed by request URL. */
    var stores: map<string, map<string, Response>>

    ghost predicate Valid()
      reads this
    {
      Distinct(names) && forall n :: n in names <==> n in stores
    }

    constructor ()
      ensures Valid() && names == [] && stores == map[]
    {
      names := [];
      stores := map[];
    }

    /** `caches.open(name)`: the named cache, created empty if missing. */
    method Open(name: string)
      requires Valid()
      modifies this
      ensures Valid()
      ensures names == old(names) + (if name in old(stores) then [] else [name])
      ensures stores == old(stores)[name := Opened(old(stores), name)]
    {
      if name !in stores {
        names := names + [name];
        stores := stores[name := map[]];
      } else {
        stores := stores[name := stores[name]];
      }
    }

    /** `cache.put(request, response)` on an open cache; a rejected put
        changes nothing. */
    method Put(name: string, request: Request, response: Response)
      requires Valid() && name in stores
      modifies this
      ensures Valid()
      ensures names == old(names)
      ensures stores == old(stores)[name := PutResult(old(stores)[name], request, response)]
    {
      stores := stores[name := PutResult(stores[name], request, response)];
    }

    /** `cache.addAll(urls)`: fetches every URL with GET and stores all the
        responses, or, when any fetch fails or answers with a status that is
        not ok or is 206, stores nothing. */
    method AddAll(name: string, urls: seq<string>, fetched: seq<NetworkResult>)
      requires Valid() && name in stores && |urls| == |fetched|
      modifies this
      ensures Valid()
      ensures names == old(names)
      ensures stores == old(stores)[name := AddAllResult(old(stores)[name], urls, fetched)]
    {
      stores := stores[name := AddAllResult(stores[name], urls, fetched)];
    }

    /** `caches.match(request)`: nothing for a request other than GET, and
        otherwise the entry of the first cache holding the URL. */
    function Match(request: Request): (r: Option<Response>)
      reads this
      ensures r.None? <==> request.verb != "GET" || forall k :: 0 <= k < |names| ==> !Holds(stores, names[k], request.url)
      ensures r.Some? ==> exists k :: 0 <= k < |names| && Holds(stores, names[k], request.url)
                                      && r.value == stores[names[k]][request.url]
    {
      if request.verb != "GET" then None else Lookup(names, stores, request.url)
    }

    /** `caches.delete(name)`: true when the cache existed. */
    method Delete(name: string) returns (deleted: bool)
      requires Valid()
      modifies this
      ensures Valid()
      ensures deleted <==> name in old(stores)
      ensures names == Without(old(names), name)
      ensures stores == old(stores) - {name}
    {
      deleted := name in stores;
      names := Without(names, name);
      stores := stores - {name};
    }

    /** `caches.keys()` */
    method Keys() returns (keys: seq<string>)
      ensures keys == names
    {
      keys := names;
    }
  }

  /** A response `addAll` accepts. */
  predicate Addable(result: NetworkResult) {
    result.Fetched? && IsOk(result.response.status) && result.response.status != 206
  }

  /** `urls[i] := rs[i]` for each i in turn. */
  function PutEach(cache: map<string, Response>, urls: seq<string>, rs: seq<Response>): (r: map<string, Response>)
    requires |urls| == |rs|
    ensures forall u :: u in r <==> u in cache || u in urls
  {
    if urls == [] then cache
    else
      var n := |urls| - 1;
      assert urls == urls[..n] + [urls[n]];
      PutEach(cache, urls[..n], rs[..n])[urls[n] := rs[n]]
  }

  /** The cache contents after `cache.addAll`: all or nothing. */
  function AddAllResult(cache: map<string, Response>, urls: seq<string>, fetched: seq<NetworkResult>): map<string, Response>
    requires |urls| == |fetched|
  {
    if forall i :: 0 <= i < |fetched| ==> Addable(fetched[i]) then
      PutEach(cache, urls, seq(|fetched|, i requires 0 <= i < |fetched| => fetched[i].response))
    else cache
  }

  // ---------------------------------------------------------------------------
  // The three event handlers

  /** The answer to a fetch event, given what the network returned and what
      `caches.match` finds. */
  function Respond(request: Request, network: NetworkResult, cached: Option<Response>): (d: FetchDecision)
    ensures d.NotIntercepted? <==> !IsHttp(request.url)
    ensures IsHttp(request.url) && network.Fetched? ==> d == RespondWith(network.response)
    ensures IsHttp(request.url) && network.NetworkError? ==> d == RespondWith(Fallback(cached))
  {
    if !IsHttp(request.url) then NotIntercepted
    else
      match network
      case Fetched(response) => RespondWith(response)
      case NetworkError => RespondWith(Fallback(cached))
  }

  /** The fetch handler writes to the cache exactly for an intercepted
      request that the network answered, that is not an API request, and
      whose cache could be opened. */
  predicate WillStore(request: Request, network: NetworkResult, openFails: bool) {
    IsHttp(request.url) && network.Fetched? && !IsApiUrl(request.url) && !openFails
  }

  /** The fetch handler. `openFails` says whether `caches.open` rejects;
      every rejection of `open` or `put` is swallowed. */
  method HandleFetch(caches: CacheStorage, request: Request, network: NetworkResult, openFails: bool)
      returns (decision: FetchDecision)
    requires caches.Valid()
    modifies caches
    ensures caches.Valid()
    ensures decision == Respond(request, network, old(caches.Match(request)))
    ensures !WillStore(request, network, openFails) ==>
              caches.names == old(caches.names) && caches.stores == old(caches.stores)
    ensures WillStore(request, network, openFails) ==>
              && caches.names == old(caches.names) + (if CacheName in old(caches.stores) then [] else [CacheName])
              && caches.stores == old(caches.stores)[CacheName :=
                   PutResult(Opened(old(caches.stores), CacheName), request, network.response)]
  {
    if !IsHttp(request.url) {
      return NotIntercepted;
    }
    match network {
      case Fetched(response) =>
        if !IsApiUrl(request.url) && !openFails {
          caches.Open(CacheName);
          caches.Put(CacheName, request, response);
        }
        decision := RespondWith(response);
      case NetworkError =>
        var cached := caches.Match(request);
        decision := RespondWith(Fallback(cached));
    }
  }

  /** The activate handler: deletes every cache whose name is not
      "weather-app-v2"; that one, if present, keeps its entries. */
  method Activate(caches: CacheStorage)
    requires caches.Valid()
    modifies caches
    ensures caches.Valid()
    ensures forall n :: n in caches.stores <==> n in old(caches.stores) && n == CacheName
    ensures CacheName in caches.stores ==> caches.stores[CacheName] == old(caches.stores)[CacheName]
    ensures caches.names == if CacheName in old(caches.stores) then [CacheName] else []
  {
    var cacheNames := caches.Keys();
    for i := 0 to |cacheNames|
      invariant caches.Valid()
      invariant forall n :: n in caches.stores <==>
                  n in old(caches.stores) && (n == CacheName || n !in cacheNames[..i])
      invariant forall n :: n in caches.stores ==> caches.stores[n] == old(caches.stores)[n]
    {
      if cacheNames[i] != CacheName {
        var _ := caches.Delete(cacheNames[i]);
      }
    }
    assert cacheNames[..|cacheNames|] == cacheNames;
    OnlyName(caches.names, CacheName);
  }

  /** A list without repeats whose every element is `name` is [] or [name]. */
  lemma OnlyName(names: seq<string>, name: string)
    requires Distinct(names)
    requires forall x :: x in names ==> x == name
    ensures names == if name in names then [name] else []
  {
    if names != [] {
      assert names[0] in names;
      var second := if |names| > 1 then 1 else 0;
      assert names[second] in names;
      assert names == [names[0]];
    }
  }

  /** `new URL(path, base)` for the "./"-relative paths of the app shell,
      where `base` is the directory URL of the worker script. */
  function Resolve(base: string, path: string): string
    requires StartsWith(path, "./")
  {
    base + path[2..]
  }

  /** The four app-shell URLs, all under the worker's base URL. */
  function PrecacheUrls(base: string): (urls: seq<string>)
    ensures |urls| == |PrecachePaths|
    ensures forall i :: 0 <= i < |urls| ==> StartsWith(urls[i], base)
  {
    [Resolve(base, PrecachePaths[0]), Resolve(base, PrecachePaths[1]),
     Resolve(base, PrecachePaths[2]), Resolve(base, PrecachePaths[3])]
  }

  /** The install handler. `openFails` says whether `caches.open` rejects and
      `fetched` is the network's answer to each app-shell URL. Every failure
      is swallowed, so the handler's promise always settles successfully. */
  method Install(caches: CacheStorage, base: string, fetched: seq<NetworkResult>, openFails: bool)
      returns (settled: bool)
    requires caches.Valid() && |fetched| == |PrecachePaths|
    modifies caches
    ensures caches.Valid()
    ensures settled
    ensures openFails ==> caches.names == old(caches.names) && caches.stores == old(caches.stores)
    ensures !openFails ==>
              && caches.names == old(caches.names) + (if CacheName in old(caches.stores) then [] else [CacheName])
              && caches.stores == old(caches.stores)[CacheName :=
                   AddAllResult(Opened(old(caches.stores), CacheName), PrecacheUrls(base), fetched)]
  {
    settled := true;
    if openFails {
      return;
    }
    caches.Open(CacheName);
    caches.AddAll(CacheName, PrecacheUrls(base), fetched);
  }

  // ---------------------------------------------------------------------------
  // Properties of the cache model

  /** When `urls` has no repeats, `PutEach` maps each URL to its response and
      keeps every other entry. */
  lemma {:induction false} PutEachEntries(cache: map<string, Response>, urls: seq<string>, rs: seq<Response>)
    requires |urls| == |rs| && Distinct(urls)
    ensures forall i :: 0 <= i < |urls| ==> PutEach(cache, urls, rs)[urls[i]] == rs[i]
    ensures forall u :: u in cache && u !in urls ==> PutEach(cache, urls, rs)[u] == cache[u]
  {
    if urls != [] {
      var n := |urls| - 1;
      assert forall i :: 0 <= i < n ==> urls[..n][i] == urls[i] && rs[..n][i] == rs[i];
      PutEachEntries(cache, urls[..n], rs[..n]);
      forall u | u in urls[..n]
        ensures u in urls
      {
        var i :| 0 <= i < n && urls[..n][i] == u;
        assert urls[i] == u;
      }
    }
  }

  /** The four app-shell URLs are pairwise different, whatever the base. */
  lemma PrecacheUrlsDistinct(base: string)
    ensures Distinct(PrecacheUrls(base))
  {
    var urls := PrecacheUrls(base);
    assert |urls[0]| == |base| && |urls[1]| == |base| + 10;
    assert |urls[2]| == |base| + 6 && |urls[3]| == |base| + 13;
  }

  /** A successful install leaves each app-shell URL mapped to the response
      the network gave for it; a failed fetch of any of them leaves the cache
      as it was. */
  lemma InstallIsAllOrNothing(cache: map<string, Response>, base: string, fetched: seq<NetworkResult>)
    requires |fetched| == |PrecachePaths|
    ensures var r := AddAllResult(cache, PrecacheUrls(base), fetched);
      && ((forall i :: 0 <= i < |fetched| ==> Addable(fetched[i])) ==>
            forall i :: 0 <= i < |fetched| ==> PrecacheUrls(base)[i] in r && r[PrecacheUrls(base)[i]] == fetched[i].response)
      && ((exists i :: 0 <= i < |fetched| && !Addable(fetched[i])) ==> r == cache)
  {
    var urls := PrecacheUrls(base);
    if forall i :: 0 <= i < |fetched| ==> Addable(fetched[i]) {
      PrecacheUrlsDistinct(base);
      var rs := seq(|fetched|, i requires 0 <= i < |fetched| => fetched[i].response);
      PutEachEntries(cache, urls, rs);
    }
  }

  /** The entry of `name` is found when no cache before it holds the URL. */
  lemma {:induction false} LookupFindsOnlyHolder(names: seq<string>, stores: map<string, map<string, Response>>,
                                                 name: string, url: string)
    requires name in names && Holds(stores, name, url)
    requires forall n :: n in names && n != name ==> !Holds(stores, n, url)
    ensures Lookup(names, stores, url) == Some(stores[name][url])
  {
    if names[0] != name {
      LookupFindsOnlyHolder(names[1..], stores, name, url);
    }
  }

  /** Network first, cache second: once the fetch handler has stored a
      cacheable response for a GET request, a later fetch of the same request
      that finds the network down is answered with that response, provided
      no other cache holds the URL (as is the case after activation). */
  lemma StoredResponseServedOffline(names: seq<string>, stores: map<string, map<string, Response>>,
                                    request: Request, response: Response)
    requires forall n :: n in names <==> n in stores
    requires forall n :: n in names && n != CacheName ==> !Holds(stores, n, request.url)
    requires Cacheable(request, response)
    ensures var names' := names + (if CacheName in stores then [] else [CacheName]);
      var stores' := stores[CacheName := PutResult(Opened(stores, CacheName), request, response)];
      Respond(request, NetworkError, if request.verb != "GET" then None else Lookup(names', stores', request.url))
        == if IsHttp(request.url) then RespondWith(response) else NotIntercepted
  {
    var names' := names + (if CacheName in stores then [] else [CacheName]);
    var stores' := stores[CacheName := PutResult(Opened(stores, CacheName), request, response)];
    assert CacheName in names';
    forall n | n in names' && n != CacheName
      ensures !Holds(stores', n, request.url)
    {
      assert n in names;
    }
    LookupFindsOnlyHolder(names', stores', CacheName, request.url);
  }

  /** A string that has `part` in its middle includes it. */
  lemma PartIncluded(a: string, part: string, b: string)
    ensures Includes(a + part + b, part)
  {
    var s := a + part + b;
    assert s[|a|..|a| + |part|] == part;
    assert OccursAt(s, part, |a|);
    IncludesIffOccurs(s, part);
  }

  /** Any URL whose text contains one of the three weather hosts anywhere,
      whatever comes before or after it, is an API URL, and so is not cached
      when it begins with "http": the dashboard's proxied city page and its
      One Call requests are answered from the network only. */
  lemma ApiHostsAreApiUrls(before: string, after: string)
    ensures IsApiUrl(before + "weather.gc.ca" + after)
    ensures IsApiUrl(before + "openweathermap.org" + after)
    ensures IsApiUrl(before + "allorigins.win" + after)
  {
    PartIncluded(before, "weather.gc.ca", after);
    PartIncluded(before, "openweathermap.org", after);
    PartIncluded(before, "allorigins.win", after);
  }
}
