/** The cache policy of sw.js: which fetches the worker answers and by which strategy,
    the cache-first and network-first strategies, the pruning of old caches on
    activation and the CLEAR_CACHE message. The browser's CacheStorage is a list of cache
    names in creation order with a map from name to the cache's entries, each cache a map
    from request URL to response. The network's answer to a fetch is a parameter. */
module ServiceWorker {
  import opened JsBase

  const CacheName: string := "dancebudpwa-v1.0.0"
  /** The entry cacheFirst falls back to when the network fails. */
  const OfflinePage: string := "/dancebudpwa/index.html"
  const ClearCacheType: string := "CLEAR_CACHE"

  datatype Request = Request(url: string, protocol: string, destination: string)

  datatype Response = Response(status: int, body: string)

  /** What fetch() gives: a response (of any status) or a network failure. */
  datatype FetchOutcome = NetworkError | Fetched(response: Response)

  /** What the worker hands to respondWith: a response, undefined (a cache miss on the
      fallback), or the rethrown failure. */
  datatype Answer = Respond(response: Response) | Undefined | Rejected

  datatype Route = NotIntercepted | NetworkFirstRoute | CacheFirstRoute

  datatype CacheStore = CacheStore(names: seq<string>, entries: map<string, map<string, Response>>)

  const NoCaches: CacheStore := CacheStore([], map[])

  predicate Distinct(names: seq<string>)
  {
    forall a, b :: 0 <= a < b < |names| ==> names[a] != names[b]
  }

  /** Every listed cache exists exactly once. */
  predicate Valid(cs: CacheStore)
  {
    && Distinct(cs.names)
    && (forall n :: n in cs.names ==> n in cs.entries)
    && (forall n :: n in cs.entries ==> n in cs.names)
  }

  // ---------------------------------------------------------------------------
  // Routing

  /** The fetch listener: non-http(s) requests are left to the browser; API, camera and
      media requests go network-first; everything else cache-first. */
  function RouteFor(req: Request): Route
  {
    if !StartsWith(req.protocol, "http") then NotIntercepted
    else if Contains(req.url, "/api/") || Contains(req.url, "getUserMedia")
            || req.destination == "video" || req.destination == "audio" then NetworkFirstRoute
    else CacheFirstRoute
  }

  // ---------------------------------------------------------------------------
  // The cache store

  /** caches.match(url): the entry of the first cache, in creation order, that has one. */
  function MatchIn(names: seq<string>, entries: map<string, map<string, Response>>, url: string): Option<Response>
  {
    if names == [] then None
    else if names[0] in entries && url in entries[names[0]] then Some(entries[names[0]][url])
    else MatchIn(names[1..], entries, url)
  }

  function Match(cs: CacheStore, url: string): Option<Response>
  {
    MatchIn(cs.names, cs.entries, url)
  }

  /** caches.open(name) followed by cache.put(url, response). */
  function Put(cs: CacheStore, name: string, url: string, response: Response): CacheStore
  {
    if name in cs.entries then CacheStore(cs.names, cs.entries[name := cs.entries[name][url := response]])
    else CacheStore(cs.names + [name], cs.entries[name := map[url := response]])
  }

  /** A response is written to the current cache only when its status is 200. */
  function Stored(cs: CacheStore, url: string, response: Response): CacheStore
  {
    if response.status == 200 then Put(cs, CacheName, url, response) else cs
  }

  /** caches.delete(name). */
  function Deleted(cs: CacheStore, name: string): CacheStore
  {
    CacheStore(Without(cs.names, name), cs.entries - {name})
  }

  function Without(names: seq<string>, name: string): (r: seq<string>)
    ensures forall n :: n in r <==> n in names && n != name
  {
    if names == [] then [] else if names[0] == name then Without(names[1..], name)
    else [names[0]] + Without(names[1..], name)
  }

  // ---------------------------------------------------------------------------
  // Strategies and handlers

  /** cacheFirst(request) given what fetch would give. */
  function CacheFirstResult(cs: CacheStore, req: Request, fetched: FetchOutcome): (CacheStore, Answer)
  {
    var hit := Match(cs, req.url);
    if hit.Some? then (cs, Respond(hit.value))
    else if fetched.NetworkError? then
      (cs, if Match(cs, OfflinePage).Some? then Respond(Match(cs, OfflinePage).value) else Undefined)
    else (Stored(cs, req.url, fetched.response), Respond(fetched.response))
  }

  /** networkFirst(request) given what fetch gives. */
  function NetworkFirstResult(cs: CacheStore, req: Request, fetched: FetchOutcome): (CacheStore, Answer)
  {
    if fetched.NetworkError? then
      (cs, if Match(cs, req.url).Some? then Respond(Match(cs, req.url).value) else Rejected)
    else (Stored(cs, req.url, fetched.response), Respond(fetched.response))
  }

  /** The fetch listener; None when it does not call respondWith. */
  function FetchResult(cs: CacheStore, req: Request, fetched: FetchOutcome): (CacheStore, Option<Answer>)
  {
    match RouteFor(req)
    case NotIntercepted => (cs, None)
    case NetworkFirstRoute => var (t, a) := NetworkFirstResult(cs, req, fetched); (t, Some(a))
    case CacheFirstRoute => var (t, a) := CacheFirstResult(cs, req, fetched); (t, Some(a))
  }

  /** The names of the caches the activate handler keeps. */
  function KeptNames(names: seq<string>): seq<string>
  {
    if names == [] then []
    else if names[0] != CacheName then KeptNames(names[1..])
    else [names[0]] + KeptNames(names[1..])
  }

  /** The activate handler: every cache but the current one deleted. */
  function Activated(cs: CacheStore): CacheStore
  {
    CacheStore(KeptNames(cs.names), if CacheName in cs.entries then map[CacheName := cs.entries[CacheName]] else map[])
  }

  /** A message event's data: absent, or an object whose `type` may be missing. */
  datatype MessageData = NoData | Data(kind: Option<string>)

  /** The message listener's CLEAR_CACHE branch: every cache deleted. */
  function AfterMessage(cs: CacheStore, data: MessageData): CacheStore
  {
    if data.Data? && data.kind == Some(ClearCacheType) then NoCaches else cs
  }

  // ---------------------------------------------------------------------------
  // Properties

  /** Match finds an entry exactly when some cache holds the URL, and what it finds is
      that cache's entry. */
  lemma {:induction false} MatchRule(names: seq<string>, entries: map<string, map<string, Response>>, url: string)
    ensures MatchIn(names, entries, url).Some? <==>
      exists i :: 0 <= i < |names| && names[i] in entries && url in entries[names[i]]
    ensures MatchIn(names, entries, url).Some? ==>
      exists i :: 0 <= i < |names| && names[i] in entries && url in entries[names[i]]
        && MatchIn(names, entries, url).value == entries[names[i]][url]
        && forall j :: 0 <= j < i ==> !(names[j] in entries && url in entries[names[j]])
  {
    if names != [] {
      MatchRule(names[1..], entries, url);
      if !(names[0] in entries && url in entries[names[0]]) {
        if exists i :: 0 <= i < |names| && names[i] in entries && url in entries[names[i]] {
          var i :| 0 <= i < |names| && names[i] in entries && url in entries[names[i]];
          assert 0 <= i - 1 < |names[1..]| && names[1..][i - 1] == names[i];
        }
        forall i | 0 <= i < |names[1..]| && names[1..][i] in entries && url in entries[names[1..][i]]
          ensures 0 <= i + 1 < |names| && names[i + 1] in entries && url in entries[names[i + 1]]
        {
        }
        if MatchIn(names[1..], entries, url).Some? {
          var k :| 0 <= k < |names[1..]| && names[1..][k] in entries && url in entries[names[1..][k]]
            && MatchIn(names[1..], entries, url).value == entries[names[1..][k]][url]
            && forall j :: 0 <= j < k ==> !(names[1..][j] in entries && url in entries[names[1..][j]]);
          forall j | 0 <= j < k + 1
            ensures !(names[j] in entries && url in entries[names[j]])
          {
            if j > 0 {
              assert names[j] == names[1..][j - 1];
            }
          }
          assert names[k + 1] == names[1..][k];
        }
      }
    }
  }

  /** Requests whose protocol does not start with "http" are not answered. */
  lemma NonHttpIgnored(cs: CacheStore, req: Request, fetched: FetchOutcome)
    requires !StartsWith(req.protocol, "http")
    ensures FetchResult(cs, req, fetched) == (cs, None)
  {
  }

  /** An http(s) request goes network-first exactly when its URL contains "/api/" or
      "getUserMedia" or it loads video or audio, and cache-first otherwise. */
  lemma RouteRule(req: Request)
    requires StartsWith(req.protocol, "http")
    ensures RouteFor(req) == NetworkFirstRoute <==>
      Contains(req.url, "/api/") || Contains(req.url, "getUserMedia")
      || req.destination == "video" || req.destination == "audio"
    ensures RouteFor(req) != NotIntercepted
  {
  }

  /** A cache hit is answered as it is, whatever the network would do, and changes
      nothing. */
  lemma CacheHitNoFetch(cs: CacheStore, req: Request, f1: FetchOutcome, f2: FetchOutcome)
    requires Match(cs, req.url).Some?
    ensures CacheFirstResult(cs, req, f1) == CacheFirstResult(cs, req, f2) == (cs, Respond(Match(cs, req.url).value))
  {
  }

  /** networkFirst writes a fetched response to the current cache under the request's URL
      exactly when its status is 200, whether or not the URL was cached before (the refresh
      case), and touches no other entry; otherwise the store stays as it was. The fetched
      response is the answer either way. */
  lemma NetworkFirstWriteRule(cs: CacheStore, req: Request, resp: Response)
    requires Valid(cs)
    ensures var (t, a) := NetworkFirstResult(cs, req, Fetched(resp));
      && a == Respond(resp)
      && (resp.status == 200 ==>
            && Valid(t) && CacheName in t.entries && t.entries[CacheName][req.url] == resp
            && (forall n :: n in t.entries && n != CacheName ==> n in cs.entries && t.entries[n] == cs.entries[n])
            && (forall u :: u in t.entries[CacheName] && u != req.url ==> cs.entries[CacheName][u] == t.entries[CacheName][u])
            && (forall n :: n in cs.entries ==> n in t.entries)
            && (CacheName in cs.entries ==> forall u :: u in cs.entries[CacheName] ==> u in t.entries[CacheName]))
      && (resp.status != 200 ==> t == cs)
  {
    if resp.status == 200 {
      PutValid(cs, CacheName, req.url, resp);
    }
  }

  /** On a miss cacheFirst fetches and writes exactly as networkFirst does: the response
      is cached only when its status is 200, and no other entry changes. */
  lemma OnlyOkCached(cs: CacheStore, req: Request, resp: Response)
    requires Valid(cs)
    requires Match(cs, req.url).None?
    ensures var (t, a) := CacheFirstResult(cs, req, Fetched(resp));
      && (t, a) == NetworkFirstResult(cs, req, Fetched(resp))
      && a == Respond(resp)
      && (resp.status == 200 ==>
            && Valid(t) && CacheName in t.entries && t.entries[CacheName][req.url] == resp
            && (forall n :: n in t.entries && n != CacheName ==> n in cs.entries && t.entries[n] == cs.entries[n])
            && (forall u :: u in t.entries[CacheName] && u != req.url ==> cs.entries[CacheName][u] == t.entries[CacheName][u])
            && (forall n :: n in cs.entries ==> n in t.entries)
            && (CacheName in cs.entries ==> forall u :: u in cs.entries[CacheName] ==> u in t.entries[CacheName]))
      && (resp.status != 200 ==> t == cs)
  {
    NetworkFirstWriteRule(cs, req, resp);
  }

  /** cache.put keeps the store invariant, writes the one entry and leaves every other
      entry as it was. */
  lemma PutValid(cs: CacheStore, name: string, url: string, response: Response)
    requires Valid(cs)
    ensures var t := Put(cs, name, url, response);
      && Valid(t) && name in t.entries && t.entries[name][url] == response
      && (forall n :: n in t.entries && n != name ==> n in cs.entries && t.entries[n] == cs.entries[n])
      && (forall u :: u in t.entries[name] && u != url ==> cs.entries[name][u] == t.entries[name][u])
      && (forall n :: n in cs.entries ==> n in t.entries)
      && (name in cs.entries ==> forall u :: u in cs.entries[name] ==> u in t.entries[name])
  {
  }

  /** On a network failure networkFirst answers from the cache if it can and otherwise
      rethrows, leaving the store unchanged. */
  lemma NetworkFailureFallback(cs: CacheStore, req: Request)
    ensures var (t, a) := NetworkFirstResult(cs, req, NetworkError);
      && t == cs
      && (Match(cs, req.url).Some? ==> a == Respond(Match(cs, req.url).value))
      && (Match(cs, req.url).None? ==> a == Rejected)
  {
  }

  /** On a cache miss and a network failure cacheFirst answers with the cached offline
      page, or with undefined when that is not cached either. */
  lemma OfflineFallback(cs: CacheStore, req: Request)
    requires Match(cs, req.url).None?
    ensures var (t, a) := CacheFirstResult(cs, req, NetworkError);
      && t == cs
      && (Match(cs, OfflinePage).Some? ==> a == Respond(Match(cs, OfflinePage).value))
      && (Match(cs, OfflinePage).None? ==> a == Undefined)
  {
  }

  lemma {:induction false} KeptNamesRule(names: seq<string>)
    ensures forall n :: n in KeptNames(names) <==> n in names && n == CacheName
  {
    if names != [] {
      KeptNamesRule(names[1..]);
      assert names == [names[0]] + names[1..];
    }
  }

  /** After activation the only cache left is the current one, with its entries; the
      CLEAR_CACHE message leaves none, and other messages change nothing. */
  lemma PruneRule(cs: CacheStore, data: MessageData)
    requires Valid(cs)
    ensures var t := Activated(cs);
      && Valid(t)
      && (forall n :: n in t.entries ==> n == CacheName)
      && (CacheName in cs.entries <==> CacheName in t.entries)
      && (CacheName in cs.entries ==> t.entries[CacheName] == cs.entries[CacheName])
    ensures data == Data(Some(ClearCacheType)) ==> AfterMessage(cs, data) == NoCaches && Valid(NoCaches)
    ensures data != Data(Some(ClearCacheType)) ==> AfterMessage(cs, data) == cs
  {
    KeptNamesOfDistinct(cs.names);
  }

  /** Of distinct names the activate handler keeps at most the current one. */
  lemma {:induction false} KeptNamesOfDistinct(names: seq<string>)
    requires Distinct(names)
    ensures KeptNames(names) == if CacheName in names then [CacheName] else []
  {
    if names != [] {
      var tail := names[1..];
      assert Distinct(tail) by {
        forall a, b | 0 <= a < b < |tail| ensures tail[a] != tail[b]
        {
          assert tail[a] == names[a + 1] && tail[b] == names[b + 1];
        }
      }
      KeptNamesOfDistinct(tail);
      assert names == [names[0]] + tail;
      if names[0] == CacheName {
        assert CacheName !in tail by {
          forall k | 0 <= k < |tail| ensures tail[k] != CacheName
          {
            assert tail[k] == names[k + 1];
          }
        }
      }
    }
  }

  /** Every handler keeps the store well formed. */
  lemma ValidPreserved(cs: CacheStore, req: Request, fetched: FetchOutcome, data: MessageData)
    requires Valid(cs)
    ensures Valid(FetchResult(cs, req, fetched).0)
    ensures Valid(AfterMessage(cs, data))
  {
    var t := FetchResult(cs, req, fetched).0;
    if fetched.Fetched? {
      var p := Put(cs, CacheName, req.url, fetched.response);
      assert Stored(cs, req.url, fetched.response) in {cs, p};
      assert t in {cs, p};
      PutValid(cs, CacheName, req.url, fetched.response);
    } else {
      assert t == cs;
    }
  }

  // ---------------------------------------------------------------------------
  // The cache storage object

  class Caches {
    var names: seq<string>
    var entries: map<string, map<string, Response>>

    function State(): CacheStore
      reads this
    {
      CacheStore(names, entries)
    }

    constructor ()
      ensures State() == NoCaches
    {
      names, entries := [], map[];
    }

    /** caches.match(url). */
    method MatchUrl(url: string) returns (hit: Option<Response>)
      ensures hit == Match(State(), url)
    {
      var i := 0;
      while i < |names|
        invariant 0 <= i <= |names|
        invariant MatchIn(names, entries, url) == MatchIn(names[i..], entries, url)
      {
        if names[i] in entries && url in entries[names[i]] {
          return Some(entries[names[i]][url]);
        }
        assert names[i..][1..] == names[i + 1..];
        i := i + 1;
      }
      return None;
    }

    /** caches.open(CACHE_NAME) and cache.put for a status-200 response. */
    method StoreResponse(url: string, response: Response)
      modifies this
      ensures State() == Stored(old(State()), url, response)
    {
      if response.status == 200 {
        if CacheName in entries {
          entries := entries[CacheName := entries[CacheName][url := response]];
        } else {
          names := names + [CacheName];
          entries := entries[CacheName := map[url := response]];
        }
      }
    }

    method CacheFirst(req: Request, fetched: FetchOutcome) returns (answer: Answer)
      modifies this
      ensures (State(), answer) == CacheFirstResult(old(State()), req, fetched)
    {
      var cached := MatchUrl(req.url);
      if cached.Some? {
        return Respond(cached.value);
      }
      if fetched.NetworkError? {
        var offline := MatchUrl(OfflinePage);
        return if offline.Some? then Respond(offline.value) else Undefined;
      }
      StoreResponse(req.url, fetched.response);
      answer := Respond(fetched.response);
    }

    method NetworkFirst(req: Request, fetched: FetchOutcome) returns (answer: Answer)
      modifies this
      ensures (State(), answer) == NetworkFirstResult(old(State()), req, fetched)
    {
      if fetched.Fetched? {
        StoreResponse(req.url, fetched.response);
        return Respond(fetched.response);
      }
      var cached := MatchUrl(req.url);
      answer := if cached.Some? then Respond(cached.value) else Rejected;
    }

    method OnFetch(req: Request, fetched: FetchOutcome) returns (answer: Option<Answer>)
      modifies this
      ensures (State(), answer) == FetchResult(old(State()), req, fetched)
    {
      if !StartsWith(req.protocol, "http") {
        return None;
      }
      var a;
      if Contains(req.url, "/api/") || Contains(req.url, "getUserMedia")
         || req.destination == "video" || req.destination == "audio" {
        a := NetworkFirst(req, fetched);
      } else {
        a := CacheFirst(req, fetched);
      }
      answer := Some(a);
    }

    method Delete(name: string)
      modifies this
      ensures State() == Deleted(old(State()), name)
    {
      names := Without(names, name);
      entries := entries - {name};
    }

    /** The activate handler, deleting the caches of the listing one by one. */
    method Activate()
      modifies this
      requires Valid(State())
      ensures Valid(State())
      ensures forall n :: n in entries ==> n == CacheName
      ensures CacheName in old(entries) ==> CacheName in entries && entries[CacheName] == old(entries)[CacheName]
      ensures CacheName !in old(entries) ==> entries == map[]
    {
      var listed := names;
      var i := 0;
      while i < |listed|
        invariant 0 <= i <= |listed|
        invariant forall n :: n in names <==> n in entries
        invariant forall n :: n in entries <==> n in old(entries) && (n == CacheName || n !in listed[..i])
        invariant forall n :: n in entries ==> entries[n] == old(entries)[n]
        invariant Distinct(names)
      {
        assert listed[..i + 1] == listed[..i] + [listed[i]];
        if listed[i] != CacheName {
          ghost var before := names;
          WithoutDistinct(names, listed[i]);
          Delete(listed[i]);
          assert names == Without(before, listed[i]);
        }
        i := i + 1;
      }
      assert listed[..i] == listed;
    }

    /** The CLEAR_CACHE branch of the message handler. */
    method OnMessage(data: MessageData)
      modifies this
      requires Valid(State())
      ensures State() == AfterMessage(old(State()), data)
    {
      if data.Data? && data.kind == Some(ClearCacheType) {
        var listed := names;
        var i := 0;
        while i < |listed|
          invariant 0 <= i <= |listed|
          invariant names == listed[i..]
          invariant forall n :: n in entries <==> n in names
        {
          WithoutListed(listed, i);
          Delete(listed[i]);
          i := i + 1;
        }
        assert entries.Keys == {};
      }
    }
  }

  /** Deleting the i-th of distinct names from the listing's tail starting there
      leaves the tail after it. */
  lemma WithoutListed(listed: seq<string>, i: int)
    requires Distinct(listed) && 0 <= i < |listed|
    ensures Without(listed[i..], listed[i]) == listed[i + 1..]
  {
    assert listed[i] !in listed[i + 1..] by {
      forall j | i < j < |listed| ensures listed[j] != listed[i] {}
    }
    WithoutAbsent(listed[i + 1..], listed[i]);
    assert listed[i..][1..] == listed[i + 1..];
  }

  lemma {:induction false} WithoutAbsent(names: seq<string>, name: string)
    requires name !in names
    ensures Without(names, name) == names
  {
    if names != [] {
      WithoutAbsent(names[1..], name);
    }
  }

  lemma {:induction false} WithoutDistinct(names: seq<string>, name: string)
    requires Distinct(names)
    ensures Distinct(Without(names, name))
  {
    if names != [] {
      var tail := names[1..];
      assert Distinct(tail) by {
        forall a, b | 0 <= a < b < |tail| ensures tail[a] != tail[b]
        {
          assert tail[a] == names[a + 1] && tail[b] == names[b + 1];
        }
      }
      WithoutDistinct(tail, name);
      if names[0] != name {
        var r := [names[0]] + Without(tail, name);
        forall a, b | 0 <= a < b < |r| ensures r[a] != r[b]
        {
          if a == 0 {
            assert r[b] in Without(tail, name);
            assert r[b] in tail;
            var k :| 0 <= k < |tail| && tail[k] == r[b];
            assert names[k + 1] == r[b];
          } else {
            assert r[a] == Without(tail, name)[a - 1] && r[b] == Without(tail, name)[b - 1];
          }
        }
      }
    }
  }
}
