/**
 * The decorators of src/decorators.ts and the interceptor registry of an axios
 * instance they register on. A decorator's `decorate` only registers
 * interceptors; what an interceptor does when it fires is given by the
 * transform functions over header and cookie maps below.
 */
module Decorators {
  import opened Types

  /** The cookie jar of SvelteKit's `RequestEvent`, the only part of it decorators use. */
  class RequestEvent {
    var cookies: map<string, string>

    constructor(cookies: map<string, string>)
      ensures this.cookies == cookies
    {
      this.cookies := cookies;
    }
  }

  /** The response an interceptor inspects: its status and headers (its data is passed on untouched). */
  datatype Response = Response(status: int, headers: map<string, string>)

  // ---------------------------------------------------------------- AuthorizationHeader

  datatype AuthorizationHeaderConfig =
    AuthorizationHeaderConfig(header: string, cookie: string, prefixAuthToken: string -> string)

  /** The constructor's argument: each field may be left out. */
  datatype AuthorizationHeaderOptions =
    AuthorizationHeaderOptions(header: Option<string>, cookie: Option<string>,
                               prefixAuthToken: Option<string -> string>)

  /** The default token prefix, `Bearer ${token}`. */
  function BearerPrefix(token: string): (r: string)
    ensures |r| == 7 + |token| && r[..7] == "Bearer " && r[7..] == token
  {
    "Bearer " + token
  }

  /**
   * The constructor's merge of options over defaults: a supplied field wins, a missing one keeps the
   * default (header "Authorization", cookie "auth-token", prefix "Bearer " + token).
   */
  function AuthorizationHeaderSettings(o: AuthorizationHeaderOptions): (c: AuthorizationHeaderConfig)
    ensures c.header == (if o.header.Some? then o.header.value else "Authorization")
    ensures c.cookie == (if o.cookie.Some? then o.cookie.value else "auth-token")
    ensures forall token :: c.prefixAuthToken(token) ==
                            if o.prefixAuthToken.Some? then o.prefixAuthToken.value(token) else "Bearer " + token
  {
    AuthorizationHeaderConfig(
      if o.header.Some? then o.header.value else "Authorization",
      if o.cookie.Some? then o.cookie.value else "auth-token",
      if o.prefixAuthToken.Some? then o.prefixAuthToken.value else BearerPrefix)
  }

  /**
   * The request interceptor: when the auth cookie holds a token, the configured header
   * is set to the prefixed token; every other header, and the header when there is no
   * token, stays as it was.
   */
  function AuthorizationRequestHeaders(c: AuthorizationHeaderConfig, cookies: map<string, string>,
                                       headers: map<string, string>): (r: map<string, string>)
    ensures c.cookie in cookies ==> Lookup(r, c.header) == Some(c.prefixAuthToken(cookies[c.cookie]))
    ensures c.cookie !in cookies ==> r == headers
    ensures forall k :: k != c.header ==> Lookup(r, k) == Lookup(headers, k)
  {
    if c.cookie in cookies then headers[c.header := c.prefixAuthToken(cookies[c.cookie])] else headers
  }

  /** The response interceptor's effect on cookies: on status 401 the auth cookie is deleted, otherwise nothing changes. */
  function AuthorizationResponseCookies(c: AuthorizationHeaderConfig, response: Response,
                                        cookies: map<string, string>): (r: map<string, string>)
    ensures response.status == 401 ==> c.cookie !in r
    ensures response.status != 401 ==> r == cookies
    ensures forall k :: k != c.cookie ==> Lookup(r, k) == Lookup(cookies, k)
  {
    if response.status == 401 then cookies - {c.cookie} else cookies
  }

  // ---------------------------------------------------------------- AutoRefresh

  datatype AutoRefreshConfig =
    AutoRefreshConfig(refreshTokenCookie: string, authTokenCookie: string, sendRefreshInHeader: string,
                      receiveAuthToken: string, receiveRefreshToken: string)

  datatype AutoRefreshOptions =
    AutoRefreshOptions(refreshTokenCookie: Option<string>, authTokenCookie: Option<string>,
                       sendRefreshInHeader: Option<string>, receiveAuthToken: Option<string>,
                       receiveRefreshToken: Option<string>)

  function OrElse(o: Option<string>, default: string): string
  {
    if o.Some? then o.value else default
  }

  /**
   * The same merge for AutoRefresh: each supplied field wins over its
   * default ("refresh-token", "auth-token", "x-Refresh-Token", "x-Set-Auth-Token",
   * "x-Set-Refresh-Token").
   */
  function AutoRefreshSettings(o: AutoRefreshOptions): (c: AutoRefreshConfig)
    ensures o.refreshTokenCookie.Some? ==> c.refreshTokenCookie == o.refreshTokenCookie.value
    ensures o.refreshTokenCookie.None? ==> c.refreshTokenCookie == "refresh-token"
    ensures o.authTokenCookie.Some? ==> c.authTokenCookie == o.authTokenCookie.value
    ensures o.authTokenCookie.None? ==> c.authTokenCookie == "auth-token"
    ensures o.sendRefreshInHeader.Some? ==> c.sendRefreshInHeader == o.sendRefreshInHeader.value
    ensures o.sendRefreshInHeader.None? ==> c.sendRefreshInHeader == "x-Refresh-Token"
    ensures o.receiveAuthToken.Some? ==> c.receiveAuthToken == o.receiveAuthToken.value
    ensures o.receiveAuthToken.None? ==> c.receiveAuthToken == "x-Set-Auth-Token"
    ensures o.receiveRefreshToken.Some? ==> c.receiveRefreshToken == o.receiveRefreshToken.value
    ensures o.receiveRefreshToken.None? ==> c.receiveRefreshToken == "x-Set-Refresh-Token"
  {
    AutoRefreshConfig(
      OrElse(o.refreshTokenCookie, "refresh-token"),
      OrElse(o.authTokenCookie, "auth-token"),
      OrElse(o.sendRefreshInHeader, "x-Refresh-Token"),
      OrElse(o.receiveAuthToken, "x-Set-Auth-Token"),
      OrElse(o.receiveRefreshToken, "x-Set-Refresh-Token"))
  }

  /** The request interceptor: when the refresh cookie holds a token, it is sent in the configured header. */
  function AutoRefreshRequestHeaders(c: AutoRefreshConfig, cookies: map<string, string>,
                                     headers: map<string, string>): (r: map<string, string>)
    ensures c.refreshTokenCookie in cookies ==>
      Lookup(r, c.sendRefreshInHeader) == Some(cookies[c.refreshTokenCookie])
    ensures c.refreshTokenCookie !in cookies ==> r == headers
    ensures forall k :: k != c.sendRefreshInHeader ==> Lookup(r, k) == Lookup(headers, k)
  {
    if c.refreshTokenCookie in cookies then headers[c.sendRefreshInHeader := cookies[c.refreshTokenCookie]]
    else headers
  }

  /**
   * The response interceptor's effect on cookies: unless the status is 401, a received
   * auth token is stored in the auth cookie and then a received refresh token in the
   * refresh cookie (so the refresh token wins if both cookies have one name); on 401
   * nothing changes.
   */
  function AutoRefreshResponseCookies(c: AutoRefreshConfig, response: Response,
                                      cookies: map<string, string>): (r: map<string, string>)
    ensures response.status == 401 ==> r == cookies
    ensures forall k :: Lookup(r, k) ==
                        if response.status != 401 && k == c.refreshTokenCookie && c.receiveRefreshToken in response.headers
                        then Some(response.headers[c.receiveRefreshToken])
                        else if response.status != 401 && k == c.authTokenCookie && c.receiveAuthToken in response.headers
                        then Some(response.headers[c.receiveAuthToken])
                        else Lookup(cookies, k)
  {
    if response.status != 401 then
      var withAuth := if c.receiveAuthToken in response.headers
                      then cookies[c.authTokenCookie := response.headers[c.receiveAuthToken]]
                      else cookies;
      if c.receiveRefreshToken in response.headers
      then withAuth[c.refreshTokenCookie := response.headers[c.receiveRefreshToken]]
      else withAuth
    else
      cookies
  }

  // ---------------------------------------------------------------- AddHeader

  /** AddHeader's request interceptor: sets `key` to `value`, every other header unchanged. */
  function AddHeaderRequestHeaders(key: string, value: string, headers: map<string, string>)
    : (r: map<string, string>)
    ensures Lookup(r, key) == Some(value)
    ensures forall k :: k != key ==> Lookup(r, k) == Lookup(headers, k)
  {
    headers[key := value]
  }

  // ---------------------------------------------------------------- decorators and interceptors

  /** The three decorators of the library with their settled configuration. */
  datatype Decorator =
    | AuthorizationHeader(auth: AuthorizationHeaderConfig)
    | AutoRefresh(refresh: AutoRefreshConfig)
    | AddHeader(key: string, value: string)

  /** A registered request interceptor; it reads the cookies of the event it was registered with. */
  datatype RequestInterceptor =
    | SendAuthToken(auth: AuthorizationHeaderConfig, event: RequestEvent)
    | SendRefreshToken(refresh: AutoRefreshConfig, event: RequestEvent)
    | SetHeader(key: string, value: string)

  /** A registered response interceptor; it updates the cookies of the event it was registered with. */
  datatype ResponseInterceptor =
    | ForgetAuthToken(auth: AuthorizationHeaderConfig, event: RequestEvent)
    | StoreReceivedTokens(refresh: AutoRefreshConfig, event: RequestEvent)

  /** The interceptor registry of one `axios.create()` instance. */
  class AxiosInstance {
    var requestInterceptors: seq<RequestInterceptor>
    var responseInterceptors: seq<ResponseInterceptor>

    constructor()
      ensures requestInterceptors == [] && responseInterceptors == []
    {
      requestInterceptors := [];
      responseInterceptors := [];
    }

    /** `interceptors.request.use(i)`. */
    method UseRequest(i: RequestInterceptor)
      modifies this
      ensures requestInterceptors == old(requestInterceptors) + [i]
      ensures responseInterceptors == old(responseInterceptors)
    {
      requestInterceptors := requestInterceptors + [i];
    }

    /** `interceptors.response.use(i)`. */
    method UseResponse(i: ResponseInterceptor)
      modifies this
      ensures responseInterceptors == old(responseInterceptors) + [i]
      ensures requestInterceptors == old(requestInterceptors)
    {
      responseInterceptors := responseInterceptors + [i];
    }
  }

  /** The request interceptor a decorator registers: every decorator registers exactly one. */
  function RequestHook(d: Decorator, event: RequestEvent): RequestInterceptor
  {
    match d
    case AuthorizationHeader(c) => SendAuthToken(c, event)
    case AutoRefresh(c) => SendRefreshToken(c, event)
    case AddHeader(k, v) => SetHeader(k, v)
  }

  /** The response interceptors a decorator registers: one, or none for AddHeader. */
  function ResponseHooks(d: Decorator, event: RequestEvent): seq<ResponseInterceptor>
  {
    match d
    case AuthorizationHeader(c) => [ForgetAuthToken(c, event)]
    case AutoRefresh(c) => [StoreReceivedTokens(c, event)]
    case AddHeader(_, _) => []
  }

  /** `decorator.decorate(axios, requestEvent)`: appends the decorator's interceptors to the registry. */
  method Decorate(d: Decorator, axios: AxiosInstance, event: RequestEvent)
    modifies axios
    ensures axios.requestInterceptors == old(axios.requestInterceptors) + [RequestHook(d, event)]
    ensures axios.responseInterceptors == old(axios.responseInterceptors) + ResponseHooks(d, event)
  {
    match d
    case AuthorizationHeader(c) =>
      axios.UseRequest(SendAuthToken(c, event));
      axios.UseResponse(ForgetAuthToken(c, event));
    case AutoRefresh(c) =>
      axios.UseRequest(SendRefreshToken(c, event));
      axios.UseResponse(StoreReceivedTokens(c, event));
    case AddHeader(k, v) =>
      axios.UseRequest(SetHeader(k, v));
  }

  /** The request interceptors of a list of decorators, in list order. */
  function RequestHooksOf(ds: seq<Decorator>, event: RequestEvent): seq<RequestInterceptor>
  {
    if ds == [] then [] else RequestHooksOf(ds[..|ds| - 1], event) + [RequestHook(ds[|ds| - 1], event)]
  }

  /** The response interceptors of a list of decorators, in list order. */
  function ResponseHooksOf(ds: seq<Decorator>, event: RequestEvent): seq<ResponseInterceptor>
  {
    if ds == [] then [] else ResponseHooksOf(ds[..|ds| - 1], event) + ResponseHooks(ds[|ds| - 1], event)
  }

  /** The i-th request interceptor of a list is the one the i-th decorator registered. */
  lemma {:induction false} RequestHooksOfAt(ds: seq<Decorator>, event: RequestEvent, i: nat)
    requires i < |ds|
    ensures |RequestHooksOf(ds, event)| == |ds|
    ensures RequestHooksOf(ds, event)[i] == RequestHook(ds[i], event)
  {
    RequestHooksOfLength(ds, event);
    if i < |ds| - 1 {
      RequestHooksOfAt(ds[..|ds| - 1], event, i);
    }
  }

  lemma {:induction false} RequestHooksOfLength(ds: seq<Decorator>, event: RequestEvent)
    ensures |RequestHooksOf(ds, event)| == |ds|
  {
    if ds != [] {
      RequestHooksOfLength(ds[..|ds| - 1], event);
    }
  }

  /** Running two lists one after the other registers the first's interceptors, then the second's. */
  lemma {:induction false} HooksOfAppend(a: seq<Decorator>, b: seq<Decorator>, event: RequestEvent)
    ensures RequestHooksOf(a + b, event) == RequestHooksOf(a, event) + RequestHooksOf(b, event)
    ensures ResponseHooksOf(a + b, event) == ResponseHooksOf(a, event) + ResponseHooksOf(b, event)
  {
    if b != [] {
      var b' := b[..|b| - 1];
      assert (a + b)[..|a + b| - 1] == a + b';
      assert (a + b)[|a + b| - 1] == b[|b| - 1];
      HooksOfAppend(a, b', event);
    } else {
      assert a + b == a;
    }
  }

  /** `decorators.forEach(d => d.decorate(axios, requestEvent))`. */
  method DecorateAll(ds: seq<Decorator>, axios: AxiosInstance, event: RequestEvent)
    modifies axios
    ensures axios.requestInterceptors == old(axios.requestInterceptors) + RequestHooksOf(ds, event)
    ensures axios.responseInterceptors == old(axios.responseInterceptors) + ResponseHooksOf(ds, event)
  {
    var i := 0;
    while i < |ds|
      invariant 0 <= i <= |ds|
      invariant axios.requestInterceptors == old(axios.requestInterceptors) + RequestHooksOf(ds[..i], event)
      invariant axios.responseInterceptors == old(axios.responseInterceptors) + ResponseHooksOf(ds[..i], event)
    {
      ghost var done := ds[..i + 1];
      assert done[..|done| - 1] == ds[..i] && done[|done| - 1] == ds[i];
      assert RequestHooksOf(done, event) == RequestHooksOf(ds[..i], event) + [RequestHook(ds[i], event)];
      assert ResponseHooksOf(done, event) == ResponseHooksOf(ds[..i], event) + ResponseHooks(ds[i], event);
      Decorate(ds[i], axios, event);
      i := i + 1;
    }
    assert ds[..i] == ds;
  }

  /** The effect of firing a request interceptor on the outgoing headers. */
  function InterceptedHeaders(i: RequestInterceptor, headers: map<string, string>): map<string, string>
    reads if i.SetHeader? then {} else {i.event}
  {
    match i
    case SendAuthToken(c, event) => AuthorizationRequestHeaders(c, event.cookies, headers)
    case SendRefreshToken(c, event) => AutoRefreshRequestHeaders(c, event.cookies, headers)
    case SetHeader(k, v) => AddHeaderRequestHeaders(k, v, headers)
  }

  /** The effect of firing a response interceptor on the cookies of its event. */
  function InterceptedCookies(i: ResponseInterceptor, response: Response, cookies: map<string, string>)
    : map<string, string>
  {
    match i
    case ForgetAuthToken(c, _) => AuthorizationResponseCookies(c, response, cookies)
    case StoreReceivedTokens(c, _) => AutoRefreshResponseCookies(c, response, cookies)
  }

  // The two methods below are the interceptor bodies on their own. axios runs them
  // when a request is sent; that firing is not part of this model, so nothing here
  // calls them. They are proved equal to the transform functions above.

  /** The body of a request interceptor: reads the event's cookies and returns the updated request headers. */
  method RunRequestInterceptor(i: RequestInterceptor, headers: map<string, string>)
    returns (r: map<string, string>)
    ensures r == InterceptedHeaders(i, headers)
  {
    match i
    case SendAuthToken(c, event) =>
      r := headers;
      if c.cookie in event.cookies {
        r := r[c.header := c.prefixAuthToken(event.cookies[c.cookie])];
      }
    case SendRefreshToken(c, event) =>
      r := headers;
      if c.refreshTokenCookie in event.cookies {
        r := r[c.sendRefreshInHeader := event.cookies[c.refreshTokenCookie]];
      }
    case SetHeader(k, v) =>
      r := headers[k := v];
  }

  /** The body of a response interceptor: sets or deletes cookies of its event in place and passes the response on. */
  method RunResponseInterceptor(i: ResponseInterceptor, response: Response) returns (r: Response)
    modifies i.event
    ensures r == response
    ensures i.event.cookies == InterceptedCookies(i, response, old(i.event.cookies))
  {
    r := response;
    match i
    case ForgetAuthToken(c, event) =>
      if response.status == 401 {
        event.cookies := event.cookies - {c.cookie};
      }
    case StoreReceivedTokens(c, event) =>
      if response.status != 401 {
        if c.receiveAuthToken in response.headers {
          event.cookies := event.cookies[c.authTokenCookie := response.headers[c.receiveAuthToken]];
        }
        if c.receiveRefreshToken in response.headers {
          event.cookies := event.cookies[c.refreshTokenCookie := response.headers[c.receiveRefreshToken]];
        }
      }
  }
}
