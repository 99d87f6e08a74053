/**
 * `compose` and the factory members of src/builder.ts. They create clients, so they
 * live beside module Client rather than inside ApiBuilder (a module cannot import
 * a module that imports it).
 */
module Factory {
  import opened Types
  import opened Builder
  import opened Client

  /**
   * `compose(path, method, options)`: a fresh client for the joined url, with the
   * defaulted options, reading `builder` for decorators and cache when called.
   */
  method Compose<V>(builder: ApiBuilder<V>, path: string, httpMethod: Method, options: ComposeOptions)
    returns (c: Client<V>)
    ensures fresh(c)
    ensures c.url == ComposeUrl(builder.baseUrl, path) && c.httpMethod == httpMethod
    ensures c.useAuth == WithDefaults(options).auth && c.useCache == WithDefaults(options).cache
    ensures c.format == WithDefaults(options).format && c.config == builder
    ensures c.queryData == None && c.data == None && c.cacheTTL == 0.0 && c.decorators == []
  {
    var resolved := WithDefaults(options);
    c := new Client(ComposeUrl(builder.baseUrl, path), httpMethod, resolved.auth, resolved.cache,
                    resolved.format, builder);
  }

  /** The factory member `e` applied to `path` (`api.get(path)`, `api.auth.json.post(path)`, ...). */
  method Make<V>(builder: ApiBuilder<V>, e: Endpoint, path: string) returns (c: Client<V>)
    ensures fresh(c)
    ensures c.url == ComposeUrl(builder.baseUrl, path) && c.httpMethod == e.Verb()
    ensures c.useCache <==> e == Get
    ensures c.useAuth <==> e.UnderAuth()
    ensures c.format == (if e.UnderJson() then JSON else if e.UnderForm() then FormData else NoFormat)
    ensures c.config == builder
    ensures c.queryData == None && c.data == None && c.cacheTTL == 0.0 && c.decorators == []
  {
    var (httpMethod, options) := EndpointCompose(e);
    c := Compose(builder, path, httpMethod, options);
  }

  /**
   * Only `get` yields clients the cache can serve: a client with the table's flags for
   * `e` is cache-eligible for some TTL and cache service exactly when `e` is `get`
   * (`auth.get` has auth and no cache).
   */
  lemma OnlyGetIsCacheable(e: Endpoint)
    ensures var (httpMethod, options) := EndpointCompose(e);
            var flags := WithDefaults(options);
            (flags.cache && httpMethod == GET && !flags.auth) <==> e == Get
  {
  }

  /**
   * The `isCached` getter on a client with the flags `Make` gives endpoint `e`: among
   * all factory members, the cache serves only `get`'s clients, and those exactly
   * when their TTL is positive and the builder has a cache service.
   */
  lemma MadeClientIsCached<V>(c: Client<V>, e: Endpoint)
    requires c.httpMethod == e.Verb()
    requires c.useCache <==> e == Get
    requires c.useAuth <==> e.UnderAuth()
    ensures c.IsCached() <==> e == Get && c.cacheTTL > 0.0 && c.config.cacheService != null
  {
  }
}
