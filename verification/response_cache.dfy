/**
 * The response cache of the API views (`CachedMixin` in src/sa_api/views.py).
 *
 * A GET request is looked up in a shared key-value store under a key made
 * by concatenating the view's cache prefix, the raw query string and the
 * raw Accept header. A hit rebuilds an HTTP response from the stored
 * (content, status, headers) triple; a miss runs the wrapped dispatch,
 * stores its triple and records the key in a key set kept in the same
 * store under `prefix + "_keys"`. Any other method goes straight to the
 * wrapped dispatch.
 *
 * The store is the `Cache` class; the wrapped dispatch (`super().dispatch`)
 * is a function parameter `inner`; the headers a freshly constructed
 * `HttpResponse` starts with are the parameter `initial`.
 */
module ResponseCache {
  import opened Wrappers
  import opened Text

  datatype Header = Header(name: string, value: string)

  /** An HTTP response; `headers` is what `response.items()` lists. */
  datatype Response = Response(content: string, status: int, headers: seq<Header>)

  /** The triple `cache_response` stores. */
  datatype Entry = Entry(content: string, status: int, headers: seq<Header>)

  /** What a slot of the store can hold: a response triple, or the key set of a view. */
  datatype CacheValue = ResponseData(entry: Entry) | KeyIndex(keys: set<string>)

  datatype Request = Request(httpMethod: string, meta: map<string, string>)

  datatype Failure =
    | MissingMeta(name: string)  // KeyError reading request.META
    | MalformedEntry             // a key set read back as a response triple fails to unpack
    | IndexNotASet               // the `_keys` slot holds a triple, which has no `add`

  /**
   * The cache prefixes the views declare as class attributes. None of these
   * views derives from the mixin yet, so the prefixes take effect only once
   * one does.
   */
  const DataSetCollectionPrefix := "dataset_collection"
  const PlaceCollectionPrefix := "place_collection"
  const ActivityPrefix := "activity"

  /**
   * `cache_prefix`: a class attribute declared by the view overrides the
   * mixin's property, which is the lower-cased class name.
   */
  function CachePrefix(className: string, declared: Option<string>): (p: string)
    ensures declared.Some? ==> p == declared.value
    ensures declared.None? ==> |p| == |className| && forall i :: 0 <= i < |p| ==> p[i] == LowerChar(className[i])
  {
    match declared
    case Some(d) => d
    case None => Lower(className)
  }

  /**
   * Two views that declare no prefix share their prefix, and so every
   * cache key, exactly when their class names agree up to case.
   */
  lemma UndeclaredPrefixesShareKeys(c1: string, c2: string, query: string, accept: string)
    ensures CachePrefix(c1, None) == CachePrefix(c2, None) <==> Lower(c1) == Lower(c2)
    ensures CacheKey(CachePrefix(c1, None), query, accept) == CacheKey(CachePrefix(c2, None), query, accept)
            <==> Lower(c1) == Lower(c2)
  {
    var p1, p2 := CachePrefix(c1, None), CachePrefix(c2, None);
    if p1 == p2 {
      assert |Lower(c1)| == |Lower(c2)|;
      forall i | 0 <= i < |c1| ensures Lower(c1)[i] == Lower(c2)[i] {
        assert p1[i] == p2[i];
      }
    }
    if CacheKey(p1, query, accept) == CacheKey(p2, query, accept) {
      var k := CacheKey(p1, query, accept);
      assert |p1| == |p2|;
      assert p1 == k[..|p1|] == p2;
    }
  }

  /** The key of a GET request: prefix, query string and Accept header, with no delimiter. */
  function CacheKey(prefix: string, query: string, accept: string): (key: string)
    ensures prefix <= key && |key| == |prefix| + |query| + |accept|
  {
    prefix + query + accept
  }

  /** Where a view's key set lives. */
  function IndexKey(prefix: string): string
  {
    prefix + "_keys"
  }

  predicate HasKeyMeta(req: Request)
  {
    "QUERY_STRING" in req.meta && "HTTP_ACCEPT" in req.meta
  }

  function KeyOf(prefix: string, req: Request): string
    requires HasKeyMeta(req)
  {
    CacheKey(prefix, req.meta["QUERY_STRING"], req.meta["HTTP_ACCEPT"])
  }

  function Stored(store: map<string, CacheValue>, key: string): Option<CacheValue>
  {
    if key in store then Some(store[key]) else None
  }

  /** `if response_data:` — a triple is always true, a key set only when non-empty. */
  predicate IsHit(cached: Option<CacheValue>)
  {
    match cached
    case None => false
    case Some(ResponseData(_)) => true
    case Some(KeyIndex(keys)) => keys != {}
  }

  /** The Django cache: one shared store of named values. */
  class Cache {
    var store: map<string, CacheValue>

    constructor ()
      ensures store == map[]
    {
      store := map[];
    }

    function Get(key: string): Option<CacheValue>
      reads this
    {
      Stored(store, key)
    }

    method Set(key: string, value: CacheValue)
      modifies this
      ensures store == old(store)[key := value]
    {
      store := store[key := value];
    }
  }

  // ---------------------------------------------------------------------
  // Rebuilding a response from a stored triple

  /** The value of the header named `name`; header names compare case-insensitively. */
  function Lookup(hs: seq<Header>, name: string): Option<string>
  {
    if hs == [] then None
    else if Lower(hs[0].name) == Lower(name) then Some(hs[0].value)
    else Lookup(hs[1..], name)
  }

  /** `response[name] = value`: replaces the header with that name, or adds it. */
  function SetHeader(hs: seq<Header>, h: Header): (r: seq<Header>)
    ensures forall n :: Lookup(r, n) == if Lower(n) == Lower(h.name) then Some(h.value) else Lookup(hs, n)
  {
    if hs == [] then [h]
    else if Lower(hs[0].name) == Lower(h.name) then [h] + hs[1..]
    else
      var r := [hs[0]] + SetHeader(hs[1..], h);
      assert r[1..] == SetHeader(hs[1..], h);
      r
  }

  /** Sets every header of `stored` on `hs`, first to last. */
  function SetHeaders(hs: seq<Header>, stored: seq<Header>): seq<Header>
  {
    if stored == [] then hs
    else SetHeader(SetHeaders(hs, stored[..|stored| - 1]), stored[|stored| - 1])
  }

  /** The value of the last header of `stored` named `name`. */
  function LastSet(stored: seq<Header>, name: string): Option<string>
  {
    if stored == [] then None
    else if Lower(stored[|stored| - 1].name) == Lower(name) then Some(stored[|stored| - 1].value)
    else LastSet(stored[..|stored| - 1], name)
  }

  /** The response `respond_from_cache` builds from a stored triple. */
  function Rebuilt(e: Entry, initial: seq<Header>): Response
  {
    Response(e.content, e.status, SetHeaders(initial, e.headers))
  }

  /**
   * Setting the stored headers in order leaves each name with the value
   * of its last occurrence; names never stored keep their initial value.
   */
  lemma {:induction false} HeadersSetInOrder(hs: seq<Header>, stored: seq<Header>, name: string)
    ensures Lookup(SetHeaders(hs, stored), name)
            == if LastSet(stored, name).Some? then LastSet(stored, name) else Lookup(hs, name)
  {
    if stored != [] {
      HeadersSetInOrder(hs, stored[..|stored| - 1], name);
    }
  }

  predicate DistinctNames(hs: seq<Header>)
  {
    forall i, j :: 0 <= i < j < |hs| ==> Lower(hs[i].name) != Lower(hs[j].name)
  }

  lemma {:induction false} LookupFindsOnly(hs: seq<Header>, i: nat, name: string)
    requires i < |hs| && Lower(hs[i].name) == Lower(name)
    requires forall j :: 0 <= j < |hs| && j != i ==> Lower(hs[j].name) != Lower(name)
    ensures Lookup(hs, name) == Some(hs[i].value) && LastSet(hs, name) == Some(hs[i].value)
  {
    if i > 0 {
      LookupFindsOnly(hs[1..], i - 1, name);
    }
    if i < |hs| - 1 {
      LookupFindsOnly(hs[..|hs| - 1], i, name);
    }
  }

  lemma {:induction false} LookupFindsNone(hs: seq<Header>, name: string)
    requires forall j :: 0 <= j < |hs| ==> Lower(hs[j].name) != Lower(name)
    ensures Lookup(hs, name) == None && LastSet(hs, name) == None
  {
    if hs != [] {
      LookupFindsNone(hs[1..], name);
      LookupFindsNone(hs[..|hs| - 1], name);
    }
  }

  /** With distinct header names, the first and the last occurrence are the same one. */
  lemma LastSetIsLookup(hs: seq<Header>, name: string)
    requires DistinctNames(hs)
    ensures LastSet(hs, name) == Lookup(hs, name)
  {
    if i :| 0 <= i < |hs| && Lower(hs[i].name) == Lower(name) {
      LookupFindsOnly(hs, i, name);
    } else {
      LookupFindsNone(hs, name);
    }
  }

  /** `respond_from_cache`: a response with the stored content and status, headers set one by one. */
  method RespondFromCache(e: Entry, initial: seq<Header>) returns (r: Response)
    ensures r == Rebuilt(e, initial)
  {
    var headers := initial;
    for i := 0 to |e.headers|
      invariant headers == SetHeaders(initial, e.headers[..i])
    {
      assert e.headers[..i + 1][..i] == e.headers[..i];
      headers := SetHeader(headers, e.headers[i]);
    }
    assert e.headers[..|e.headers|] == e.headers;
    r := Response(e.content, e.status, headers);
  }

  // ---------------------------------------------------------------------
  // Storing a response

  function EntryOf(r: Response): Entry
  {
    Entry(r.content, r.status, r.headers)
  }

  /** `cache.get(idx) or set()`, when what is there is a set. */
  function KnownKeys(store: map<string, CacheValue>, idx: string): set<string>
  {
    if idx in store && store[idx].KeyIndex? then store[idx].keys else {}
  }

  /**
   * The effect of `cache_response(key, response)`: the triple goes in
   * first; then the key set is read back, extended and written. When the
   * slot of the key set holds a triple, `add` raises after the first write.
   */
  function CacheResponseEffect(store: map<string, CacheValue>, prefix: string, key: string, resp: Response)
    : (Option<Failure>, map<string, CacheValue>)
  {
    var written := store[key := ResponseData(EntryOf(resp))];
    var idx := IndexKey(prefix);
    if idx in written && written[idx].ResponseData? then (Some(IndexNotASet), written)
    else (None, written[idx := KeyIndex(KnownKeys(written, idx) + {key})])
  }

  method CacheResponse(cache: Cache, prefix: string, key: string, resp: Response)
    returns (failure: Option<Failure>)
    modifies cache
    ensures (failure, cache.store) == CacheResponseEffect(old(cache.store), prefix, key, resp)
  {
    cache.Set(key, ResponseData(EntryOf(resp)));
    ghost var written := cache.store;
    var idx := IndexKey(prefix);
    var keys := cache.Get(idx);
    assert keys == Stored(written, idx);
    match keys {
      case Some(ResponseData(_)) =>
        failure := Some(IndexNotASet);
      case Some(KeyIndex(ks)) =>
        assert KnownKeys(written, idx) == ks;
        cache.Set(idx, KeyIndex(ks + {key}));
        failure := None;
      case None =>
        assert KnownKeys(written, idx) + {key} == {key};
        cache.Set(idx, KeyIndex({key}));
        failure := None;
    }
  }

  /** After `cache_response`, the key set is the previous one plus `key`; nothing else but `key` changed. */
  lemma CacheResponseBookkeeping(store: map<string, CacheValue>, prefix: string, key: string, resp: Response)
    requires key != IndexKey(prefix)
    requires !(IndexKey(prefix) in store && store[IndexKey(prefix)].ResponseData?)
    ensures var (failure, store') := CacheResponseEffect(store, prefix, key, resp);
      && failure == None
      && Stored(store', key) == Some(ResponseData(EntryOf(resp)))
      && Stored(store', IndexKey(prefix)) == Some(KeyIndex(KnownKeys(store, IndexKey(prefix)) + {key}))
      && forall k :: k != key && k != IndexKey(prefix) ==> Stored(store', k) == Stored(store, k)
  {
  }

  // ---------------------------------------------------------------------
  // Dispatch

  /** What a dispatch returns, whether it ran the wrapped dispatch, and the store afterwards. */
  datatype Outcome = Outcome(result: Result<Response, Failure>, computed: bool, store: map<string, CacheValue>)

  function DispatchEffect(store: map<string, CacheValue>, prefix: string, req: Request,
                          inner: Request -> Response, initial: seq<Header>): Outcome
  {
    if Lower(req.httpMethod) != "get" then Outcome(Ok(inner(req)), true, store)
    else if "QUERY_STRING" !in req.meta then Outcome(Err(MissingMeta("QUERY_STRING")), false, store)
    else if "HTTP_ACCEPT" !in req.meta then Outcome(Err(MissingMeta("HTTP_ACCEPT")), false, store)
    else
      var key := KeyOf(prefix, req);
      var cached := Stored(store, key);
      if IsHit(cached) then
        match cached.value
        case ResponseData(e) => Outcome(Ok(Rebuilt(e, initial)), false, store)
        case KeyIndex(_) => Outcome(Err(MalformedEntry), false, store)
      else
        var response := inner(req);
        var (failure, store') := CacheResponseEffect(store, prefix, key, response);
        Outcome(if failure.Some? then Err(failure.value) else Ok(response), true, store')
  }

  /** `dispatch` of a view that mixes in the cache. */
  method Dispatch(cache: Cache, prefix: string, req: Request, inner: Request -> Response, initial: seq<Header>)
    returns (result: Result<Response, Failure>, computed: bool)
    modifies cache
    ensures Outcome(result, computed, cache.store) == DispatchEffect(old(cache.store), prefix, req, inner, initial)
  {
    if Lower(req.httpMethod) != "get" {
      return Ok(inner(req)), true;
    }
    if "QUERY_STRING" !in req.meta {
      return Err(MissingMeta("QUERY_STRING")), false;
    }
    if "HTTP_ACCEPT" !in req.meta {
      return Err(MissingMeta("HTTP_ACCEPT")), false;
    }
    var key := CacheKey(prefix, req.meta["QUERY_STRING"], req.meta["HTTP_ACCEPT"]);
    var cached := cache.Get(key);
    if IsHit(cached) {
      match cached.value {
        case ResponseData(e) =>
          var response := RespondFromCache(e, initial);
          return Ok(response), false;
        case KeyIndex(_) =>
          return Err(MalformedEntry), false;
      }
    }
    var response := inner(req);
    var failure := CacheResponse(cache, prefix, key, response);
    result := if failure.Some? then Err(failure.value) else Ok(response);
    computed := true;
  }

  // ---------------------------------------------------------------------
  // Properties

  /** A request whose method is not `get` (compared lower-cased) neither reads nor writes the cache. */
  lemma NonGetBypassesCache(store: map<string, CacheValue>, prefix: string, req: Request,
                            inner: Request -> Response, initial: seq<Header>)
    requires Lower(req.httpMethod) != "get"
    ensures var o := DispatchEffect(store, prefix, req, inner, initial);
      o.result == Ok(inner(req)) && o.computed && o.store == store
  {
  }

  /** A GET without a query string or Accept entry in META raises before the cache is touched. */
  lemma MissingMetaRaises(store: map<string, CacheValue>, prefix: string, req: Request,
                          inner: Request -> Response, initial: seq<Header>)
    requires Lower(req.httpMethod) == "get" && !HasKeyMeta(req)
    ensures var o := DispatchEffect(store, prefix, req, inner, initial);
      o.result.Err? && o.result.error.MissingMeta? && !o.computed && o.store == store
  {
  }

  /** A hit serves the stored content and status, does not run the wrapped dispatch and changes nothing. */
  lemma HitServesStoredResponse(store: map<string, CacheValue>, prefix: string, req: Request,
                                inner: Request -> Response, initial: seq<Header>, e: Entry)
    requires Lower(req.httpMethod) == "get" && HasKeyMeta(req)
    requires Stored(store, KeyOf(prefix, req)) == Some(ResponseData(e))
    ensures var o := DispatchEffect(store, prefix, req, inner, initial);
      && o.result == Ok(Rebuilt(e, initial))
      && o.result.value.content == e.content && o.result.value.status == e.status
      && !o.computed && o.store == store
  {
  }

  /**
   * A miss returns the wrapped response unchanged and leaves its triple
   * under the key and the key in the view's key set; every other slot is
   * as it was.
   */
  lemma MissComputesAndStores(store: map<string, CacheValue>, prefix: string, req: Request,
                              inner: Request -> Response, initial: seq<Header>)
    requires Lower(req.httpMethod) == "get" && HasKeyMeta(req)
    requires !IsHit(Stored(store, KeyOf(prefix, req)))
    requires KeyOf(prefix, req) != IndexKey(prefix)
    requires !(IndexKey(prefix) in store && store[IndexKey(prefix)].ResponseData?)
    ensures var o := DispatchEffect(store, prefix, req, inner, initial);
      var key, idx := KeyOf(prefix, req), IndexKey(prefix);
      && o.result == Ok(inner(req)) && o.computed
      && Stored(o.store, key) == Some(ResponseData(EntryOf(inner(req))))
      && Stored(o.store, idx) == Some(KeyIndex(KnownKeys(store, idx) + {key}))
      && forall k :: k != key && k != idx ==> Stored(o.store, k) == Stored(store, k)
  {
    CacheResponseBookkeeping(store, prefix, KeyOf(prefix, req), inner(req));
  }

  /**
   * Get after set: the same request made again is a hit that does not run
   * the wrapped dispatch and serves the first response's content, status
   * and (for the distinct header names `items()` lists) header values.
   */
  lemma MissThenHit(store: map<string, CacheValue>, prefix: string, req: Request,
                    inner: Request -> Response, initial: seq<Header>)
    requires Lower(req.httpMethod) == "get" && HasKeyMeta(req)
    requires !IsHit(Stored(store, KeyOf(prefix, req)))
    requires KeyOf(prefix, req) != IndexKey(prefix)
    requires !(IndexKey(prefix) in store && store[IndexKey(prefix)].ResponseData?)
    requires DistinctNames(inner(req).headers)
    ensures var first := DispatchEffect(store, prefix, req, inner, initial);
      var second := DispatchEffect(first.store, prefix, req, inner, initial);
      && first.result == Ok(inner(req))
      && !second.computed && second.store == first.store
      && second.result.Ok?
      && second.result.value.content == inner(req).content
      && second.result.value.status == inner(req).status
      && forall n :: Lookup(inner(req).headers, n).Some? ==>
           Lookup(second.result.value.headers, n) == Lookup(inner(req).headers, n)
  {
    var first := DispatchEffect(store, prefix, req, inner, initial);
    MissComputesAndStores(store, prefix, req, inner, initial);
    HitServesStoredResponse(first.store, prefix, req, inner, initial, EntryOf(inner(req)));
    forall n | Lookup(inner(req).headers, n).Some?
      ensures Lookup(SetHeaders(initial, inner(req).headers), n) == Lookup(inner(req).headers, n)
    {
      HeadersSetInOrder(initial, inner(req).headers, n);
      LastSetIsLookup(inner(req).headers, n);
    }
  }

  /**
   * The key ignores the URL path and the arguments captured from it: any
   * two GET requests of one view with the same key share one entry. After
   * the first misses under the dispatch of its route, the second, whatever
   * its route, is served the first's response without running its own.
   */
  lemma SameKeySharesEntry(store: map<string, CacheValue>, prefix: string, r1: Request, r2: Request,
                           inner1: Request -> Response, inner2: Request -> Response, initial: seq<Header>)
    requires Lower(r1.httpMethod) == "get" && HasKeyMeta(r1)
    requires Lower(r2.httpMethod) == "get" && HasKeyMeta(r2)
    requires KeyOf(prefix, r1) == KeyOf(prefix, r2)
    requires !IsHit(Stored(store, KeyOf(prefix, r1)))
    requires KeyOf(prefix, r1) != IndexKey(prefix)
    requires !(IndexKey(prefix) in store && store[IndexKey(prefix)].ResponseData?)
    ensures var first := DispatchEffect(store, prefix, r1, inner1, initial);
      var second := DispatchEffect(first.store, prefix, r2, inner2, initial);
      && first.result == Ok(inner1(r1)) && first.computed
      && !second.computed && second.store == first.store
      && second.result == Ok(Rebuilt(EntryOf(inner1(r1)), initial))
  {
    var first := DispatchEffect(store, prefix, r1, inner1, initial);
    MissComputesAndStores(store, prefix, r1, inner1, initial);
    HitServesStoredResponse(first.store, prefix, r2, inner2, initial, EntryOf(inner1(r1)));
  }

  /** Two keys of one view coincide exactly when query string and Accept header concatenate alike. */
  lemma KeysCollideExactly(prefix: string, q1: string, a1: string, q2: string, a2: string)
    ensures CacheKey(prefix, q1, a1) == CacheKey(prefix, q2, a2) <==> q1 + a1 == q2 + a2
  {
    assert CacheKey(prefix, q1, a1) == prefix + (q1 + a1);
    assert CacheKey(prefix, q2, a2) == prefix + (q2 + a2);
    if CacheKey(prefix, q1, a1) == CacheKey(prefix, q2, a2) {
      assert (prefix + (q1 + a1))[|prefix|..] == q1 + a1;
      assert (prefix + (q2 + a2))[|prefix|..] == q2 + a2;
    }
  }

  /** With no delimiter, moving characters between query string and Accept header aliases the key. */
  lemma KeyAliasing(prefix: string)
    ensures CacheKey(prefix, "a=1", "json") == CacheKey(prefix, "a=1j", "son")
  {
    KeysCollideExactly(prefix, "a=1", "json", "a=1j", "son");
    assert "a=1" + "json" == "a=1j" + "son";
  }

  /**
   * Consequence of the aliasing: once `?a=1` with `Accept: json` has been
   * cached, `?a=1j` with `Accept: son` is served that response without
   * running the wrapped dispatch.
   */
  lemma AliasedRequestsShareEntry(store: map<string, CacheValue>, prefix: string,
                                  inner: Request -> Response, initial: seq<Header>)
    requires var r1 := Request("GET", map["QUERY_STRING" := "a=1", "HTTP_ACCEPT" := "json"]);
      && !IsHit(Stored(store, KeyOf(prefix, r1)))
      && KeyOf(prefix, r1) != IndexKey(prefix)
      && !(IndexKey(prefix) in store && store[IndexKey(prefix)].ResponseData?)
    ensures var r1 := Request("GET", map["QUERY_STRING" := "a=1", "HTTP_ACCEPT" := "json"]);
      var r2 := Request("GET", map["QUERY_STRING" := "a=1j", "HTTP_ACCEPT" := "son"]);
      var first := DispatchEffect(store, prefix, r1, inner, initial);
      var second := DispatchEffect(first.store, prefix, r2, inner, initial);
      && r1 != r2
      && !second.computed
      && second.result == Ok(Rebuilt(EntryOf(inner(r1)), initial))
  {
    var r1 := Request("GET", map["QUERY_STRING" := "a=1", "HTTP_ACCEPT" := "json"]);
    var r2 := Request("GET", map["QUERY_STRING" := "a=1j", "HTTP_ACCEPT" := "son"]);
    assert r1.meta["QUERY_STRING"] != r2.meta["QUERY_STRING"];
    assert Lower("GET") == "get";
    KeyAliasing(prefix);
    assert KeyOf(prefix, r1) == KeyOf(prefix, r2);
    MissComputesAndStores(store, prefix, r1, inner, initial);
  }

  /**
   * A GET whose query string and Accept header spell `_keys` has the same
   * key as the view's key set. On a miss its triple overwrites the key set
   * and `add` then raises.
   */
  lemma KeysQueryCorruptsIndex(store: map<string, CacheValue>, prefix: string,
                               inner: Request -> Response, initial: seq<Header>)
    requires !IsHit(Stored(store, IndexKey(prefix)))
    ensures var req := Request("GET", map["QUERY_STRING" := "_keys", "HTTP_ACCEPT" := ""]);
      var o := DispatchEffect(store, prefix, req, inner, initial);
      && o.result == Err(IndexNotASet) && o.computed
      && Stored(o.store, IndexKey(prefix)) == Some(ResponseData(EntryOf(inner(req))))
  {
    var req := Request("GET", map["QUERY_STRING" := "_keys", "HTTP_ACCEPT" := ""]);
    assert Lower("GET") == "get";
    assert KeyOf(prefix, req) == IndexKey(prefix);
  }

  /**
   * A GET whose key is the key-set key while that key set is non-empty is
   * a hit on a set: unpacking it as a triple raises, nothing is computed
   * and the store is untouched.
   */
  lemma IndexKeyHitRaises(store: map<string, CacheValue>, prefix: string, req: Request,
                          inner: Request -> Response, initial: seq<Header>)
    requires Lower(req.httpMethod) == "get" && HasKeyMeta(req)
    requires KeyOf(prefix, req) == IndexKey(prefix)
    requires IndexKey(prefix) in store && store[IndexKey(prefix)].KeyIndex?
    requires store[IndexKey(prefix)].keys != {}
    ensures var o := DispatchEffect(store, prefix, req, inner, initial);
      o.result == Err(MalformedEntry) && !o.computed && o.store == store
  {
  }

  /** Once the key-set slot holds a triple, every later cache miss of the view raises. */
  lemma CorruptIndexFailsEveryMiss(store: map<string, CacheValue>, prefix: string, req: Request,
                                   inner: Request -> Response, initial: seq<Header>)
    requires Lower(req.httpMethod) == "get" && HasKeyMeta(req)
    requires !IsHit(Stored(store, KeyOf(prefix, req)))
    requires KeyOf(prefix, req) != IndexKey(prefix)
    requires IndexKey(prefix) in store && store[IndexKey(prefix)].ResponseData?
    ensures var o := DispatchEffect(store, prefix, req, inner, initial);
      && o.result == Err(IndexNotASet) && o.computed
      && Stored(o.store, KeyOf(prefix, req)) == Some(ResponseData(EntryOf(inner(req))))
      && Stored(o.store, IndexKey(prefix)) == Stored(store, IndexKey(prefix))
  {
  }

  /** Keys of views with different declared prefixes never coincide: the prefixes differ in their first letter. */
  lemma DeclaredPrefixesSeparateViews(p1: string, p2: string, q1: string, a1: string, q2: string, a2: string)
    requires p1 in {DataSetCollectionPrefix, PlaceCollectionPrefix, ActivityPrefix}
    requires p2 in {DataSetCollectionPrefix, PlaceCollectionPrefix, ActivityPrefix}
    requires p1 != p2
    ensures CacheKey(p1, q1, a1) != CacheKey(p2, q2, a2)
  {
    assert CacheKey(p1, q1, a1)[0] == p1[0];
    assert CacheKey(p2, q2, a2)[0] == p2[0];
  }
}
