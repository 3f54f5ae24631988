/**
 * The server: it merges request parameters, wraps every country handler in
 * the response cache unless the handler is excluded from it, and registers
 * one route per country and handler.
 */
module Server {
  import opened Values
  import Countries

  /** A country handler with its exclude-from-cache marker. */
  datatype Handler = Handler(name: string, excluded: bool, invoke: Params -> Json)

  /** A country instance as the server sees it: its name and its endpoint handlers, in order. */
  datatype CountryApi = CountryApi(name: string, handlers: seq<Handler>)

  /**
   * What `get_cached_result` and `set_cached_result` are given to locate an
   * entry: the parameters, the handler's name and the version. How they hash
   * it is not part of this model, so the key is the triple itself.
   */
  datatype CacheKey = CacheKey(params: Params, handler: string, version: string)

  /** The cache bucket's contents. */
  type Store = map<CacheKey, Json>

  /** A registered route: URL rule, endpoint id, wrapper name, and the handler it wraps. */
  datatype Route = Route(path: string, endpoint: string, wrapper: string, handler: Handler)

  // ---------------------------------------------------------------------------
  // Parameters
  // ---------------------------------------------------------------------------

  /** `request.args`, whose values are strings. */
  function QueryParams(query: map<string, string>): Params
  {
    map k | k in query :: JStr(query[k])
  }

  /** What `**(request.json or {})` spreads: nothing for a falsy body, None when it is not a mapping. */
  function BodyParams(body: Option<Json>): Option<Params>
  {
    if body.None? || !Truthy(body.value) then Some(map[])
    else if body.value.JObj? then Some(body.value.fields)
    else None
  }

  /** `{**request.args, **(request.json or {})}`: body keys win over query keys. */
  function MergeParams(query: map<string, string>, body: Option<Json>): (r: Result<Params>)
    ensures r.Ok? <==> body.None? || !Truthy(body.value) || body.value.JObj?
    ensures r.Ok? && (body.None? || !Truthy(body.value)) ==> r.value == QueryParams(query)
    ensures r.Ok? && body.Some? && body.value.JObj? ==>
      && r.value.Keys == query.Keys + body.value.fields.Keys
      && (forall k :: k in body.value.fields ==> r.value[k] == body.value.fields[k])
      && (forall k :: k in query && k !in body.value.fields ==> r.value[k] == JStr(query[k]))
  {
    match BodyParams(body)
    case None => Err("TypeError: the JSON body is not a mapping")
    case Some(b) => Ok(QueryParams(query) + b)
  }

  // ---------------------------------------------------------------------------
  // Naming
  // ---------------------------------------------------------------------------

  /** `name.replace('_', '-')`. */
  function Hyphenate(name: string): (r: string)
    ensures |r| == |name|
    ensures forall i :: 0 <= i < |r| ==> r[i] == (if name[i] == '_' then '-' else name[i])
  {
    if name == [] then []
    else [if name[0] == '_' then '-' else name[0]] + Hyphenate(name[1..])
  }

  /** The URL rule of a handler: `/{country}/api/{route with hyphens}`. */
  function RoutePath(country: string, name: string): string
  {
    "/" + country + "/api/" + Hyphenate(name)
  }

  /** The Flask endpoint id: `{country}_{route}`. */
  function EndpointId(country: string, name: string): string
  {
    country + "_" + name
  }

  /** `new_fn.__name__`: prefixed with `cached_` unless the handler is excluded. */
  function WrapperName(h: Handler): string
  {
    (if h.excluded then "" else "cached_") + h.name
  }

  function RouteFor(country: string, h: Handler): Route
  {
    Route(RoutePath(country, h.name), EndpointId(country, h.name), WrapperName(h), h)
  }

  /** The routes one country contributes, in the order of its endpoints. */
  function CountryRoutes(c: CountryApi): (rs: seq<Route>)
    ensures |rs| == |c.handlers|
    ensures forall j :: 0 <= j < |rs| ==> rs[j] == RouteFor(c.name, c.handlers[j])
  {
    seq(|c.handlers|, j requires 0 <= j < |c.handlers| => RouteFor(c.name, c.handlers[j]))
  }

  /** The routes of all countries, country by country. */
  function RouteTable(cs: seq<CountryApi>): seq<Route>
  {
    if cs == [] then [] else RouteTable(cs[..|cs| - 1]) + CountryRoutes(cs[|cs| - 1])
  }

  /** The attributes `setattr(self, fn.__name__, fn)` leaves, one route after another. */
  function Overlay(m: map<string, Route>, rs: seq<Route>): map<string, Route>
  {
    if rs == [] then m else Overlay(m, rs[..|rs| - 1])[rs[|rs| - 1].wrapper := rs[|rs| - 1]]
  }

  // ---------------------------------------------------------------------------
  // The cache wrapper
  // ---------------------------------------------------------------------------

  /** `bool(os.environ.get("POLICYENGINE_DEBUG"))`: set and non-empty. */
  predicate DebugMode(debugEnv: Option<string>)
  {
    debugEnv.Some? && debugEnv.value != ""
  }

  /** `_init_cache` opens the bucket only when it is named and debug mode is off. */
  predicate CacheEnabled(bucketName: Option<string>, debugEnv: Option<string>)
  {
    bucketName.Some? && !DebugMode(debugEnv)
  }

  /** `get_cached_result`: absence, or a stored null, reads as None. */
  function Lookup(store: Store, key: CacheKey): Option<Json>
  {
    if key in store && store[key] != JNull then Some(store[key]) else None
  }

  /** What one wrapped call returns, the cache it leaves, and whether the handler ran. */
  datatype Outcome = Outcome(result: Json, store: Option<Store>, invoked: bool)

  /** `new_fn` once the parameters are merged: the specification `Call` follows. */
  function Serve(cache: Option<Store>, version: string, h: Handler, params: Params): Outcome
  {
    var key := CacheKey(params, h.name, version);
    var used := if h.excluded then None else cache;
    var cached := if used.Some? then Lookup(used.value, key) else None;
    if cached.Some? then Outcome(cached.value, cache, false)
    else
      var result := h.invoke(params);
      Outcome(result, if used.Some? then Some(used.value[key := result]) else cache, true)
  }

  class PolicyEngine {
    const version: string
    const cacheBucketName: Option<string>
    var cache: Option<Store>
    var routes: seq<Route>
    var attributes: map<string, Route>
    /** The handler calls made so far, with the parameters each received. */
    ghost var invocations: seq<(string, Params)>

    /** `__init__`: the cache, then one route per country and handler. */
    constructor (version: string, cacheBucketName: Option<string>, debugEnv: Option<string>,
                 bucket: Store, countries: seq<CountryApi>)
      ensures this.version == version && this.cacheBucketName == cacheBucketName
      ensures cache == (if CacheEnabled(cacheBucketName, debugEnv) then Some(bucket) else None)
      ensures routes == RouteTable(countries)
      ensures attributes == Overlay(map[], RouteTable(countries))
      ensures invocations == []
    {
      this.version := version;
      this.cacheBucketName := cacheBucketName;
      cache := None;
      routes := [];
      attributes := map[];
      invocations := [];
      new;
      InitCache(debugEnv, bucket);
      InitForwarding(countries);
    }

    /** `_init_cache`, with the bucket's contents standing for the storage client. */
    method InitCache(debugEnv: Option<string>, bucket: Store)
      modifies this`cache
      ensures cache == (if CacheEnabled(cacheBucketName, debugEnv) then Some(bucket) else None)
    {
      if cacheBucketName.Some? && !DebugMode(debugEnv) {
        cache := Some(bucket);
      } else {
        cache := None;
      }
    }

    /** The route registration loops of `_init_forwarding`: every country in turn. */
    method InitForwarding(countries: seq<CountryApi>)
      modifies this`routes, this`attributes
      ensures routes == old(routes) + RouteTable(countries)
      ensures attributes == Overlay(old(attributes), RouteTable(countries))
    {
      ghost var routes0, attributes0 := routes, attributes;
      var i := 0;
      while i < |countries|
        invariant 0 <= i <= |countries|
        invariant routes == routes0 + RouteTable(countries[..i])
        invariant attributes == Overlay(attributes0, RouteTable(countries[..i]))
      {
        RegisterCountry(countries[i]);
        RegisteredOneCountry(countries, i);
        OverlayConcat(attributes0, RouteTable(countries[..i]), CountryRoutes(countries[i]));
        i := i + 1;
      }
      assert countries[..i] == countries;
    }

    /** The inner loop of `_init_forwarding`: one country's handlers in turn. */
    method RegisterCountry(country: CountryApi)
      modifies this`routes, this`attributes
      ensures routes == old(routes) + CountryRoutes(country)
      ensures attributes == Overlay(old(attributes), CountryRoutes(country))
    {
      ghost var routes0, attributes0 := routes, attributes;
      var j := 0;
      while j < |country.handlers|
        invariant 0 <= j <= |country.handlers|
        invariant routes == routes0 + CountryRoutes(country)[..j]
        invariant attributes == Overlay(attributes0, CountryRoutes(country)[..j])
      {
        var route := RouteFor(country.name, country.handlers[j]);
        // After pass_params_and_cache, then after app.route, which returns
        // the wrapper unchanged: the same attribute is set twice.
        attributes := attributes[route.wrapper := route];
        routes := routes + [route];
        attributes := attributes[route.wrapper := route];
        assert CountryRoutes(country)[..j + 1] == CountryRoutes(country)[..j] + [route];
        OverlayAppend(attributes0, CountryRoutes(country)[..j], route);
        j := j + 1;
      }
      assert CountryRoutes(country)[..j] == CountryRoutes(country);
    }

    /** `new_fn`: merge the parameters, then answer from the cache or run the handler. */
    method Call(h: Handler, query: map<string, string>, body: Option<Json>) returns (r: Result<Json>)
      modifies this`cache, this`invocations
      ensures MergeParams(query, body).Err? ==>
        r.Err? && cache == old(cache) && invocations == old(invocations)
      ensures MergeParams(query, body).Ok? ==>
        var params := MergeParams(query, body).value;
        var o := Serve(old(cache), version, h, params);
        && r == Ok(o.result)
        && cache == o.store
        && invocations == old(invocations) + (if o.invoked then [(h.name, params)] else [])
    {
      var merged := MergeParams(query, body);
      if merged.Err? {
        return Err(merged.error);
      }
      var params := merged.value;
      var cachedResult: Option<Json> := None;
      var store := if h.excluded then None else cache;
      if store.Some? {
        cachedResult := Lookup(store.value, CacheKey(params, h.name, version));
      }
      if cachedResult.Some? {
        return Ok(cachedResult.value);
      }
      var result := h.invoke(params);
      invocations := invocations + [(h.name, params)];
      if store.Some? {
        cache := Some(store.value[CacheKey(params, h.name, version) := result]);
      }
      return Ok(result);
    }
  }

  /** Registering one more route sets its wrapper's attribute. */
  lemma OverlayAppend(m: map<string, Route>, rs: seq<Route>, r: Route)
    ensures Overlay(m, rs + [r]) == Overlay(m, rs)[r.wrapper := r]
  {
  }

  /** Registering two runs of routes is registering their concatenation. */
  lemma {:induction false} OverlayConcat(m: map<string, Route>, rs: seq<Route>, ts: seq<Route>)
    ensures Overlay(m, rs + ts) == Overlay(Overlay(m, rs), ts)
    decreases |ts|
  {
    if ts == [] {
      assert rs + ts == rs;
    } else {
      var last := ts[|ts| - 1];
      assert rs + ts == (rs + ts[..|ts| - 1]) + [last];
      OverlayAppend(m, rs + ts[..|ts| - 1], last);
      OverlayConcat(m, rs, ts[..|ts| - 1]);
    }
  }

  /** One more country registered: the step of the outer loop. */
  lemma RegisteredOneCountry(countries: seq<CountryApi>, i: nat)
    requires i < |countries|
    ensures RouteTable(countries[..i + 1]) == RouteTable(countries[..i]) + CountryRoutes(countries[i])
    ensures CountryRoutes(countries[i])[..|countries[i].handlers|] == CountryRoutes(countries[i])
  {
    assert countries[..i + 1][..i] == countries[..i];
  }

  // ---------------------------------------------------------------------------
  // Properties
  // ---------------------------------------------------------------------------

  /** An excluded handler always runs, and the cache is neither read nor written. */
  lemma ServeExcluded(cache: Option<Store>, version: string, h: Handler, params: Params)
    requires h.excluded
    ensures Serve(cache, version, h, params) == Outcome(h.invoke(params), cache, true)
  {
  }

  /** With the cache disabled every call recomputes and nothing is stored. */
  lemma ServeDisabled(version: string, h: Handler, params: Params)
    ensures Serve(None, version, h, params) == Outcome(h.invoke(params), None, true)
  {
  }

  /** A stored non-null result is returned and the handler does not run. */
  lemma ServeHit(store: Store, version: string, h: Handler, params: Params)
    requires !h.excluded
    requires CacheKey(params, h.name, version) in store
    requires store[CacheKey(params, h.name, version)] != JNull
    ensures Serve(Some(store), version, h, params)
            == Outcome(store[CacheKey(params, h.name, version)], Some(store), false)
  {
  }

  /** On a miss (absent, or a stored null) the handler runs once and its result is stored. */
  lemma ServeMiss(store: Store, version: string, h: Handler, params: Params)
    requires !h.excluded
    requires CacheKey(params, h.name, version) !in store || store[CacheKey(params, h.name, version)] == JNull
    ensures Serve(Some(store), version, h, params)
            == Outcome(h.invoke(params),
                       Some(store[CacheKey(params, h.name, version) := h.invoke(params)]), true)
  {
  }

  /**
   * After a miss that stored a non-null result, the same parameters, handler
   * name and version are answered from the cache: by any handler of that name,
   * whichever country registered it, without running it.
   */
  lemma ServeThenHit(store: Store, version: string, h: Handler, g: Handler, params: Params)
    requires !h.excluded && !g.excluded && g.name == h.name
    requires h.invoke(params) != JNull
    ensures var first := Serve(Some(store), version, h, params);
      Serve(first.store, version, g, params) == Outcome(first.result, first.store, false)
  {
  }

  /** A handler whose result is null is run again on the next call. */
  lemma ServeNullRecomputes(store: Store, version: string, h: Handler, params: Params)
    requires !h.excluded && h.invoke(params) == JNull
    requires Lookup(store, CacheKey(params, h.name, version)).None?
    ensures var first := Serve(Some(store), version, h, params);
      Serve(first.store, version, h, params).invoked
  {
  }

  /** A write under one version leaves what every other version reads untouched. */
  lemma ServeVersionIsolation(store: Store, version: string, h: Handler, params: Params,
                              key: CacheKey)
    requires key.version != version
    ensures var after := Serve(Some(store), version, h, params).store;
      after.Some? && Lookup(after.value, key) == Lookup(store, key)
  {
  }

  /** Distinct countries without a `/` in their names never share a route. */
  lemma {:induction false} RoutePathsSeparateCountries(c: string, d: string, n: string, m: string)
    requires '/' !in c && '/' !in d
    requires RoutePath(c, n) == RoutePath(d, m)
    ensures c == d && Hyphenate(n) == Hyphenate(m)
  {
    var p, q := RoutePath(c, n), RoutePath(d, m);
    assert forall k :: 0 <= k < |c| ==> p[1 + k] == c[k];
    assert forall k :: 0 <= k < |d| ==> q[1 + k] == d[k];
    assert p[1 + |c|] == '/' && q[1 + |d|] == '/';
    assert c == p[1..1 + |c|] == q[1..1 + |d|] == d;
    assert Hyphenate(n) == p[6 + |c|..] == q[6 + |d|..] == Hyphenate(m);
  }

  /**
   * Flask needs each endpoint id to be unique: for country names without a
   * `_`, the id determines both the country and the handler name.
   */
  lemma {:induction false} EndpointIdsSeparate(c: string, d: string, n: string, m: string)
    requires '_' !in c && '_' !in d
    requires EndpointId(c, n) == EndpointId(d, m)
    ensures c == d && n == m
  {
    var p, q := EndpointId(c, n), EndpointId(d, m);
    assert forall k :: 0 <= k < |c| ==> p[k] == c[k];
    assert forall k :: 0 <= k < |d| ==> q[k] == d[k];
    assert p[|c|] == '_' && q[|d|] == '_';
    assert c == p[..|c|] == q[..|d|] == d;
    assert n == p[|c| + 1..] == q[|d| + 1..] == m;
  }

  /** Every registered route is the route of one country's handler, and each such route is registered. */
  lemma {:induction false} RouteTableMembers(cs: seq<CountryApi>, r: Route)
    ensures r in RouteTable(cs) <==>
      exists i, j :: 0 <= i < |cs| && 0 <= j < |cs[i].handlers| && r == RouteFor(cs[i].name, cs[i].handlers[j])
  {
    if cs != [] {
      var init, last := cs[..|cs| - 1], cs[|cs| - 1];
      RouteTableMembers(init, r);
      if r in RouteTable(cs) {
        if r in RouteTable(init) {
          var i, j :| 0 <= i < |init| && 0 <= j < |init[i].handlers| && r == RouteFor(init[i].name, init[i].handlers[j]);
          assert cs[i] == init[i];
        } else {
          var j :| 0 <= j < |CountryRoutes(last)| && CountryRoutes(last)[j] == r;
          assert r == RouteFor(cs[|cs| - 1].name, cs[|cs| - 1].handlers[j]);
        }
      } else {
        forall i, j | 0 <= i < |cs| && 0 <= j < |cs[i].handlers|
          ensures r != RouteFor(cs[i].name, cs[i].handlers[j])
        {
          if i < |cs| - 1 {
            assert cs[i] == init[i];
          } else {
            assert CountryRoutes(last)[j] in RouteTable(cs);
          }
        }
      }
    }
  }

  /**
   * The attribute of a wrapper name is the last route registered under it;
   * a name no route uses keeps its earlier value.
   */
  lemma {:induction false} OverlayLastWins(m: map<string, Route>, rs: seq<Route>, k: nat)
    requires k < |rs|
    requires forall l :: k < l < |rs| ==> rs[l].wrapper != rs[k].wrapper
    ensures rs[k].wrapper in Overlay(m, rs) && Overlay(m, rs)[rs[k].wrapper] == rs[k]
  {
    if k < |rs| - 1 {
      OverlayLastWins(m, rs[..|rs| - 1], k);
    }
  }

  /** Wrapper names no route uses keep their earlier attribute. */
  lemma {:induction false} OverlayUntouched(m: map<string, Route>, rs: seq<Route>, w: string)
    requires forall l :: 0 <= l < |rs| ==> rs[l].wrapper != w
    ensures w in Overlay(m, rs) <==> w in m
    ensures w in m ==> Overlay(m, rs)[w] == m[w]
  {
    if rs != [] {
      OverlayUntouched(m, rs[..|rs| - 1], w);
    }
  }

  /**
   * A country whose handlers follow the endpoint table gets eight routes:
   * the three cacheable handlers under `cached_` wrappers, the five excluded
   * ones under their own names.
   */
  lemma StandardCountryRoutes(c: CountryApi)
    requires |c.handlers| == |Countries.ApiEndpoints|
    requires forall j :: 0 <= j < |c.handlers| ==>
      c.handlers[j].name == Countries.ApiEndpoints[j].name
      && c.handlers[j].excluded == Countries.ApiEndpoints[j].excludedFromCache
    ensures |CountryRoutes(c)| == 8
    ensures forall j :: 0 <= j < 8 ==>
      (CountryRoutes(c)[j].wrapper == "cached_" + c.handlers[j].name <==> j == 1 || j == 2 || j == 7)
  {
    forall j | 0 <= j < 8
      ensures CountryRoutes(c)[j].wrapper == "cached_" + c.handlers[j].name <==> j == 1 || j == 2 || j == 7
    {
      var h := c.handlers[j];
      assert CountryRoutes(c)[j].wrapper == WrapperName(h);
      if h.excluded {
        assert |WrapperName(h)| != |"cached_" + h.name|;
      }
    }
  }
}
