/** The per-request builder and execution engine of src/client.ts. */
module Client {
  import opened Types
  import opened Results
  import opened Caching
  import opened Decorators
  import opened Http
  import opened Builder

  /** The headers `call` starts from: a Content-Type exactly when the body has a format. */
  function ContentTypeHeaders(format: BodyFormat): (h: map<string, string>)
    ensures forall k :: k != "Content-Type" ==> k !in h
    ensures Lookup(h, "Content-Type") ==
            match format
            case NoFormat => None
            case JSON => Some("application/json")
            case FormData => Some("multipart/form-data")
  {
    if format != NoFormat then
      map["Content-Type" := if format == JSON then "application/json" else "multipart/form-data"]
    else
      map[]
  }

  /**
   * One request's configuration. It is owned by one caller, changed only through
   * the chainable setters, and executed by `Call`, which reads the builder's
   * decorator lists and cache service at that moment.
   */
  class Client<V> {
    var queryData: Option<V>
    var data: Option<V>
    /** The TTL in seconds, a JavaScript number: fractions are allowed. */
    var cacheTTL: real
    /** Decorators attached with `decorate`; `Call` never reads them. */
    var decorators: seq<Decorator>
    const url: string
    const httpMethod: Method
    const useAuth: bool
    const useCache: bool
    const format: BodyFormat
    const config: ApiBuilder<V>

    constructor(url: string, httpMethod: Method, useAuth: bool, useCache: bool, format: BodyFormat,
                config: ApiBuilder<V>)
      ensures this.url == url && this.httpMethod == httpMethod && this.useAuth == useAuth
      ensures this.useCache == useCache && this.format == format && this.config == config
      ensures queryData == None && data == None && cacheTTL == 0.0 && decorators == []
    {
      this.url := url;
      this.httpMethod := httpMethod;
      this.useAuth := useAuth;
      this.useCache := useCache;
      this.format := format;
      this.config := config;
      queryData := None;
      data := None;
      cacheTTL := 0.0;
      decorators := [];
    }

    /** `decorate(d)`: appends to the local list and returns the same client. */
    method Decorate(d: Decorator) returns (self: Client<V>)
      modifies this`decorators
      ensures self == this
      ensures decorators == old(decorators) + [d]
    {
      decorators := decorators + [d];
      self := this;
    }

    /** `query(q)`: overwrites the query only and returns the same client. */
    method Query(q: V) returns (self: Client<V>)
      modifies this`queryData
      ensures self == this
      ensures queryData == Some(q)
    {
      queryData := Some(q);
      self := this;
    }

    /** `body(b)`: overwrites the body only and returns the same client. */
    method Body(b: V) returns (self: Client<V>)
      modifies this`data
      ensures self == this
      ensures data == Some(b)
    {
      data := Some(b);
      self := this;
    }

    /** `cache(ttl)`: overwrites the TTL only and returns the same client. */
    method Cache(ttl: real) returns (self: Client<V>)
      modifies this`cacheTTL
      ensures self == this
      ensures cacheTTL == ttl
    {
      cacheTTL := ttl;
      self := this;
    }

    /**
     * The `isCached` getter: the cache is used exactly when the client was built with
     * the cache flag, is a GET, has a positive TTL, carries no auth and the builder
     * has a cache service.
     */
    function IsCached(): (b: bool)
      reads this, config
      ensures b <==> && useCache && httpMethod == GET && cacheTTL > 0.0 && !useAuth
                     && config.cacheService != null
    {
      useCache && httpMethod == GET && cacheTTL > 0.0 && !useAuth && config.GetCacheService() != null
    }

    /** The request config `call` builds before any decorator runs. */
    function InitialConfig(): (c: RequestConfig<V>)
      reads this
      ensures c.url == url && c.httpMethod == httpMethod
      ensures c.data == data && c.params == queryData
      ensures c.headers == ContentTypeHeaders(format)
    {
      RequestConfig(url, httpMethod, data, queryData, ContentTypeHeaders(format))
    }

    /** The decorators `call` applies, in order: the auth list when `useAuth`, then the global list. */
    ghost function AppliedDecorators(): seq<Decorator>
      reads this, config
    {
      (if useAuth then config.authDecorators else []) + config.decorators
    }

    /** The transport call `call` makes when it does not answer from the cache. */
    ghost function DispatchFor(event: RequestEvent): Dispatch<V>
      reads this, config
    {
      Dispatch(InitialConfig(), RequestHooksOf(AppliedDecorators(), event),
               ResponseHooksOf(AppliedDecorators(), event))
    }

    /**
     * The first half of `call`: builds the config, with a Content-Type for a body
     * format, on a fresh axios instance, and runs `decorate` of the auth list
     * (only when `useAuth`) and then of the global list, each in list order.
     */
    method Prepare(event: RequestEvent) returns (d: Dispatch<V>)
      ensures d == DispatchFor(event)
    {
      var requestConfig := InitialConfig();
      ghost var auth: seq<Decorator> := if useAuth then config.authDecorators else [];
      var request := new AxiosInstance();
      if useAuth {
        DecorateAll(config.GetAuthDecorators(), request, event);
      }
      assert request.requestInterceptors == RequestHooksOf(auth, event);
      assert request.responseInterceptors == ResponseHooksOf(auth, event);
      DecorateAll(config.GetDecorators(), request, event);
      HooksOfAppend(auth, config.decorators, event);
      d := Dispatch(requestConfig, request.requestInterceptors, request.responseInterceptors);
    }

    /**
     * `call(requestEvent)`. When the client is cache-eligible and the store holds its
     * key, the stored result is returned with no transport call and the store untouched.
     * Otherwise the transport is called exactly once with the built config and the
     * interceptors of the applied decorators, and its outcome goes through `Handle`;
     * on a cache-eligible miss a Success is stored under the same key with `cacheTTL`,
     * while a Failure or a re-thrown error leaves the store untouched. A client that is
     * not cache-eligible never touches the store.
     */
    method Call(event: RequestEvent, transport: Transport<V>) returns (r: Handled<V>)
      requires config.cacheService != null ==> config.cacheService.Valid()
      modifies transport, config.cacheService
      ensures config.cacheService != null ==> config.cacheService.Valid()
      ensures IsCached() && GetUri(url) in old(config.cacheService.Contents()) ==>
        && r == Wrapped(old(config.cacheService.Contents())[GetUri(url)])
        && transport.sent == old(transport.sent)
        && unchanged(config.cacheService)
      ensures !(IsCached() && GetUri(url) in old(config.cacheService.Contents())) ==>
        && transport.sent == old(transport.sent) + [DispatchFor(event)]
        && r == Handle(transport.respond(DispatchFor(event), |old(transport.sent)|))
      ensures IsCached() && GetUri(url) !in old(config.cacheService.Contents()) ==>
        if r.Wrapped? && r.result.IsSuccess() then
          && config.cacheService.Contents() == old(config.cacheService.Contents())[GetUri(url) := r.result]
          && config.cacheService.storage ==
             old(config.cacheService.storage)[GetUri(url) :=
               Cached(r.result, Timer(old(config.cacheService.nextTimerId), GetUri(url), cacheTTL))]
          && config.cacheService.pending ==
             old(config.cacheService.pending - config.cacheService.PendingFor(GetUri(url)))
             + {Timer(old(config.cacheService.nextTimerId), GetUri(url), cacheTTL)}
          && config.cacheService.PendingFor(GetUri(url)) ==
             {Timer(old(config.cacheService.nextTimerId), GetUri(url), cacheTTL)}
        else
          unchanged(config.cacheService)
      ensures !IsCached() && config.cacheService != null ==> unchanged(config.cacheService)
    {
      var dispatch := Prepare(event);
      if IsCached() {
        var cacheService := config.GetCacheService();
        var uri := GetUri(url);
        var hit := cacheService.Has(uri);
        if hit {
          var stored := cacheService.Get(uri);
          r := Wrapped(stored.value);
        } else {
          var outcome := transport.Request(dispatch);
          r := Handle(outcome);
          // the one-argument onSuccess hook: a Success is stored under the key
          if r.Wrapped? && r.result.HookRuns(true, None) {
            cacheService.Set(uri, r.result, cacheTTL);
          }
        }
      } else {
        var outcome := transport.Request(dispatch);
        r := Handle(outcome);
      }
    }
  }

  /**
   * Two calls of one client in a row. A cache-eligible client whose key is not yet
   * stored calls the transport once and answers the second call with the same result
   * when the first was a Success; after a Failure or a re-thrown error the second
   * call goes to the transport again. A client that is not cache-eligible calls the
   * transport both times.
   */
  method CallTwice<V>(c: Client<V>, event: RequestEvent, transport: Transport<V>)
    returns (first: Handled<V>, second: Handled<V>)
    requires c.config.cacheService != null ==> c.config.cacheService.Valid()
    modifies transport, c.config.cacheService
    ensures c.config.cacheService != null ==> c.config.cacheService.Valid()
    ensures !c.IsCached() ==> |transport.sent| == |old(transport.sent)| + 2
    ensures c.IsCached() && GetUri(c.url) !in old(c.config.cacheService.Contents()) ==>
      if first.Wrapped? && first.result.IsSuccess() then
        second == first && |transport.sent| == |old(transport.sent)| + 1
      else
        |transport.sent| == |old(transport.sent)| + 2
  {
    first := c.Call(event, transport);
    second := c.Call(event, transport);
  }

  /**
   * The order of the applied decorators' request interceptors: with auth, those of the
   * auth list, each in list order, and then those of the global list; without auth,
   * only the global list's. Locally attached decorators contribute none.
   */
  lemma AppliedDecoratorOrder<V>(c: Client<V>, event: RequestEvent, i: nat)
    requires i < |c.AppliedDecorators()|
    ensures var hooks := RequestHooksOf(c.AppliedDecorators(), event);
            var auth := if c.useAuth then c.config.authDecorators else [];
            && |hooks| == |auth| + |c.config.decorators|
            && (i < |auth| ==> hooks[i] == RequestHook(auth[i], event))
            && (|auth| <= i ==> hooks[i] == RequestHook(c.config.decorators[i - |auth|], event))
  {
    var auth := if c.useAuth then c.config.authDecorators else [];
    RequestHooksOfAt(c.AppliedDecorators(), event, i);
    assert c.AppliedDecorators()[i] == if i < |auth| then auth[i] else c.config.decorators[i - |auth|];
  }

  /** Requests that carry auth are never answered from, or stored in, the cache. */
  lemma AuthRequestsBypassCache<V>(c: Client<V>)
    requires c.useAuth
    ensures !c.IsCached()
  {
  }
}
