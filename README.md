# Request-execution engine of a SvelteKit/axios API client, in Dafny

This project models the core of a small TypeScript library that makes outbound
HTTP requests from SvelteKit server code through axios. An `ApiBuilder` holds a
base URL, two decorator lists (always applied, and applied only to requests that
carry auth) and an optional cache service. Its factory members (`get`, `post`,
`json.put`, `auth.form.patch`, ...) build a `Client` for one request. The caller
chains `query`/`body`/`cache`/`decorate` on it and then runs `call`. `call` lets
the decorators register their axios interceptors. It then either answers from
the cache, or sends the request and wraps the outcome in a `Result`.

Modules, one per source file, plus `Http` for the transport and `Factory` for `compose`:

- `Types` (types.dfy): the `Method` and `BodyFormat` enumerations of src/types.ts, and an `Option` type for JavaScript's `undefined`.
- `Results` (result.dfy): the immutable `Result` value with its getters, `evaluate`, the `onSuccess`/`onFailure` hooks and `Result.handle`. A transport outcome is a datatype `Outcome` with three cases: a resolved response, an `AxiosError` with or without a response, and any other error. `Handle` turns it into a wrapped result, or says that the error is re-thrown.
- `Caching` (in-memory-cache.ts): `InMemoryCache` as a class over a map updated in place. An eviction timer is a `Timer` token. `setTimeout` adds the token to `pending`, `clearTimeout` removes it, and `Expire` is the timer firing. The invariant `Valid()` says that the only pending timer for a key is the one recorded in that key's current entry.
- `Decorators` (decorators.ts): the three decorators, with their configuration defaulting. There is an interceptor registry for an `axios.create()` instance. `decorate` appends a decorator's interceptors to it. Each interceptor's effect is a function over header and cookie maps, and `RunRequestInterceptor`/`RunResponseInterceptor` are the interceptor bodies. The response one changes the request event's cookies in place.
- `Http` (transport.dfy): the transport, `request.request(config)`. It records every call it receives and settles each call as a given oracle `respond` says. `GetUri` gives the cache key.
- `Builder` (builder.dfy): the `ApiBuilder` state and setters, and the base-URL and path slash trimming. Also the option defaulting of `compose` and the table of factory members (`Endpoint`, `EndpointCompose`).
- `Client` (client.dfy): the `Client` class, with its setters, the `isCached` getter, the Content-Type rule and `call`.
- `Factory` (factory.dfy): `compose` and the factory members. Both create clients, and module `Client` already imports `Builder`. A Dafny module cannot import a module that imports it, so these two members do not sit inside `ApiBuilder` as they do in the source.

Behaviours of the code to note:

- Decorators attached with `client.decorate(d)` are appended to the client's own list (src/client.ts:41-44). `call` never reads that list: only the builder's auth list (when `useAuth`) and its global list are applied (src/client.ts:73-74). `Client.Client.Call` and `Client.AppliedDecoratorOrder` state this as written.
- The cache key is `request.getUri({url: this.url})` (src/client.ts:78). It is given the url only, not the query, so two calls of one GET url with different `query(...)` data share a cache entry. `Http.GetUri` takes the url alone, and lookup and store use the same key.
- `call` puts `data` into the request config for every method, GET and DELETE included (src/client.ts:66). Whether a body is sent is left to the transport.
- `Result.handle` wraps a response as a Success only when axios resolves its promise. A status axios rejects becomes a Failure built from the `AxiosError` (src/result.ts:55-67).

## Model

| member | source | states |
|---|---|---|
| `Results.StatusFilter.Codes` | src/result.ts:25 | A single status becomes the one-element set. An array becomes the set of exactly its elements. |
| `Results.Result.Error` | src/result.ts:7 | `error` is defined exactly on a Failure, and then it is the payload. |
| `Results.Result.Data` | src/result.ts:8 | `data` is defined exactly on a Success, and then it is the payload. |
| `Results.Result.Status` | src/result.ts:9 | `status` is the recorded status, or 0 when none was recorded. |
| `Results.Result.IsSuccess` | src/result.ts:10 | `isSuccess` holds exactly when `data` is defined, and exactly when `error` is undefined. |
| `Results.Result.IsFailure` | src/result.ts:10-11 | `isFailure` is always the negation of `isSuccess`: exactly one holds. |
| `Results.Result.GetHeader` | src/result.ts:12-15 | `getHeader(k)` is undefined without headers. Otherwise it is present exactly when `k` has an entry, and then it is that entry. |
| `Results.Result.Evaluate` | src/result.ts:53 | A Success gives its data. A Failure gives a `fail` value carrying `status`. |
| `Results.Result.HookRuns` | src/result.ts:20-30 | A hook's handler runs exactly when the result is in the hook's case (Success for `onSuccess`, Failure for `onFailure`) and either no status filter was given or the status is in the filter's set. |
| `Results.OnSuccess` | src/result.ts:17-33 | The result is returned unchanged. The handler gets the result once when it is a Success and the filter is absent or contains `status`, and is not called otherwise. |
| `Results.OnFailure` | src/result.ts:35-51 | The mirror of `OnSuccess` for the Failure case. |
| `Results.Handle` | src/result.ts:55-67 | A resolved response becomes a Success with its status, data and every header. An `AxiosError` becomes a Failure whose error is the error itself, with the response's status and headers, or status 0 and no headers without a response. Any other error is re-thrown unchanged, and only such errors are. |
| `Caching.InMemoryCache.constructor` | src/cache/in-memory-cache.ts:5 | The cache starts empty, with no pending timers and the invariant established. |
| `Caching.InMemoryCache.Get` | src/cache/in-memory-cache.ts:7 | `get(k)` is the stored data when `k` is present, and undefined otherwise. |
| `Caching.InMemoryCache.Has` | src/cache/in-memory-cache.ts:9 | `has(k)` holds exactly when `k` is stored. |
| `Caching.InMemoryCache.Set` | src/cache/in-memory-cache.ts:11-15 | Afterwards `k` maps to `data` and every other key is unchanged. Any old timer for `k` is cancelled, and a new timer with a fresh id and `ttl` is pending. It is the only pending timer for `k`, and the invariant is kept. |
| `Caching.InMemoryCache.Schedule` | src/cache/in-memory-cache.ts:13-14 | `setTimeout` installs one fresh timer. The new entry records it, and it is the key's only pending timer. |
| `Caching.InMemoryCache.Del` | src/cache/in-memory-cache.ts:17-22 | `del(k)` removes `k` and cancels exactly its timer. Other keys and timers are unchanged, and nothing changes when `k` is absent. |
| `Caching.InMemoryCache.Expire` | src/cache/in-memory-cache.ts:13 | A pending timer firing removes only its own key and only itself from the pending timers. |
| `Caching.OnePendingTimerPerKey` | src/cache/in-memory-cache.ts:11-22 | Under the invariant, a stored key has exactly one pending timer, the one in its entry. An absent key has none. |
| `Decorators.AuthorizationHeaderSettings` | src/decorators.ts:7-15 | Each supplied option wins over its default. The defaults are header "Authorization", cookie "auth-token" and prefix "Bearer " + token. |
| `Decorators.AuthorizationRequestHeaders` | src/decorators.ts:17-21 | When the auth cookie holds a token, the header is set to the prefixed token. Otherwise the headers are unchanged, and other headers are never touched. |
| `Decorators.AuthorizationResponseCookies` | src/decorators.ts:22-25 | On status 401 the auth cookie is deleted. Otherwise the cookies are unchanged, and other cookies are never touched. |
| `Decorators.BearerPrefix` | src/decorators.ts:10 | The default prefixing is the text "Bearer " followed by exactly the token. |
| `Decorators.AutoRefreshSettings` | src/decorators.ts:30-39 | Each of the five supplied options wins over its default, and each missing one keeps it. |
| `Decorators.AutoRefreshRequestHeaders` | src/decorators.ts:41-45 | When the refresh cookie holds a token, it is sent in the configured header. Otherwise the headers are unchanged, and other headers are never touched. |
| `Decorators.AutoRefreshResponseCookies` | src/decorators.ts:46-53 | On 401 the cookies are unchanged. Otherwise each received token header is copied into its cookie, the refresh token last, and every other cookie is kept. |
| `Decorators.AddHeaderRequestHeaders` | src/decorators.ts:60-63 | `key` is set to `value`, and every other header is unchanged. |
| `Decorators.Decorate` | src/decorators.ts:16-64 | `decorate` appends exactly the decorator's interceptors to the instance: one request interceptor for every decorator, and one response interceptor for AuthorizationHeader and AutoRefresh but none for AddHeader. |
| `Decorators.RunRequestInterceptor` | src/decorators.ts:17-63 | A request interceptor's body computes the headers its decorator's request transform gives, from the cookies of the event it was registered with. |
| `Decorators.RunResponseInterceptor` | src/decorators.ts:22-53 | A response interceptor's body passes the response on unchanged and updates its event's cookies as its decorator's response transform says. |
| `Decorators.DecorateAll` | src/client.ts:73-74 | A `forEach` over a decorator list appends the interceptors of every decorator in list order. |
| `Decorators.RequestHooksOfAt` | src/client.ts:73-74 | The i-th request interceptor registered by a list comes from the list's i-th decorator. |
| `Decorators.HooksOfAppend` | src/client.ts:73-74 | Running two lists in turn registers the first list's interceptors and then the second's, for requests and for responses. |
| `Http.Transport.Request` | src/client.ts:83 | Each transport call is recorded once, in order, and settles as the oracle says for that call. |
| `Http.GetUri` | src/client.ts:78 | The cache key of a call is exactly its url: the query does not take part. |
| `Builder.TrimTrailingSlashes` | src/builder.ts:26 | The result is the longest prefix that does not end in '/'. Only '/' characters are removed. |
| `Builder.TrimLeadingSlashes` | src/builder.ts:36 | The result is the longest suffix that does not start with '/'. Only '/' characters are removed. |
| `Builder.ComposeUrl` | src/builder.ts:36 | The composed url is the base URL, one '/', and then the path without its leading slashes, so the character after the joining '/' is never a '/'. |
| `Builder.TrimIsIdempotent` | src/builder.ts:26-36 | Trimming an already trimmed base URL or path changes nothing. |
| `Builder.ComposeUrlJoinsWithOneSlash` | src/builder.ts:25-36 | With a constructor-normalised base, the composed url is the base, one '/', and the path without its leading slashes. The join point holds exactly one '/'. |
| `Builder.WithDefaults` | src/builder.ts:34 | Missing options default to auth false, cache false and format None. Supplied ones are kept. |
| `Builder.EndpointCompose` | src/builder.ts:45-77 | A factory member's verb follows its name. Only `get` asks for the cache. Exactly the `auth.*` members ask for auth. `json` gives JSON, `form` gives FormData, and the rest give no format. |
| `Builder.ApiBuilder.constructor` | src/builder.ts:25-27 | The base URL is stored with every trailing '/' removed. Both decorator lists start empty and there is no cache service. |
| `Builder.ApiBuilder.AddAuthDecorator` | src/builder.ts:18 | The decorator is appended to the end of the auth list. |
| `Builder.ApiBuilder.GetAuthDecorators` | src/builder.ts:19 | The getter returns the current auth decorator list. |
| `Builder.ApiBuilder.SetCacheService` | src/builder.ts:20 | The cache service becomes the one passed, so `getCacheService` returns the last value set. |
| `Builder.ApiBuilder.GetCacheService` | src/builder.ts:21 | The getter returns the cache service last set, or none. |
| `Builder.ApiBuilder.AddDecorator` | src/builder.ts:22 | The decorator is appended to the end of the global list. |
| `Builder.ApiBuilder.GetDecorators` | src/builder.ts:23 | The getter returns the current global decorator list. |
| `Client.ContentTypeHeaders` | src/client.ts:70 | Content-Type is present only when the format is not None: "application/json" for JSON and "multipart/form-data" for FormData. No other header is present. |
| `Client.Client.constructor` | src/client.ts:27-39 | A new client has the given settings, no query, no body, TTL 0 and no local decorators. |
| `Client.Client.Decorate` | src/client.ts:41-44 | The decorator is appended to the end of the local list, and the same client is returned. |
| `Client.Client.Query` | src/client.ts:46-49 | Only the query is overwritten, and the same client is returned. |
| `Client.Client.Body` | src/client.ts:50-53 | Only the body is overwritten, and the same client is returned. |
| `Client.Client.Cache` | src/client.ts:54-57 | Only the TTL is overwritten, and the same client is returned. |
| `Client.Client.IsCached` | src/client.ts:59 | The cache is used exactly when the client has the cache flag, is a GET, has a positive TTL, carries no auth, and its builder has a cache service. |
| `Client.Client.InitialConfig` | src/client.ts:63-70 | The request config carries the client's url, method, body and query, and the Content-Type rule's headers. |
| `Client.Client.Prepare` | src/client.ts:63-74 | The config holds the url, method, body, query and Content-Type rule. The interceptors are those of the auth list (only with `useAuth`) followed by the global list, each in order. |
| `Client.Client.Call` | src/client.ts:59-90 | On a cache-eligible hit: the stored result, no transport call, and an untouched cache. Otherwise: exactly one transport call, whose handled outcome is returned. On a miss, a Success is stored under the same key with a fresh timer for `cacheTTL`; every other key's entry and every other key's timer is unchanged. A Failure leaves the cache untouched. A client that is not cache-eligible never changes the cache. |
| `Client.CallTwice` | src/client.ts:76-89 | After a successful eligible miss, a second call returns the same result with no second transport call. After a failed miss, or with an ineligible client, both calls reach the transport. |
| `Client.AppliedDecoratorOrder` | src/client.ts:73-74 | The request interceptors are the auth list's, in order (only with `useAuth`), followed by the global list's, in order. There are none from local decorators. |
| `Client.AuthRequestsBypassCache` | src/client.ts:59 | A client that carries auth is never cache-eligible. |
| `Factory.Compose` | src/builder.ts:29-43 | A fresh client gets the composed url, the given method and the defaulted options, and reads this builder. |
| `Factory.Make` | src/builder.ts:45-77 | In the client a factory member makes, cache is on only for `get`, auth is on exactly for `auth.*`, and the format follows the member name. |
| `Factory.OnlyGetIsCacheable` | src/builder.ts:45-63 | Of all factory members, only `get` yields a client that can be cache-eligible. |
| `Factory.MadeClientIsCached` | src/client.ts:59 | On a client with the flags a factory member gives, `isCached` holds exactly for `get`'s clients with a positive TTL and a cache service. |

## Left out

- The axios transport, promises and `async`/`await` are not modelled. A transport call is a recorded call whose outcome comes from a given oracle (`Http.Transport.respond`).
- Where axios runs interceptors is not modelled: their firing order, and that fulfilled-response interceptors do not run for rejected responses. This is library behaviour. The model states the order in which interceptors are registered, and what each one does when it runs. One consequence: the instance from `axios.create()` keeps axios' default `validateStatus`, which rejects a 401, so the 401 branches of the two response interceptors (src/decorators.ts:23 and src/decorators.ts:48) do not run in `call` as written. The model states both branches as the code writes them.
- `getUri`'s URL and parameter serialisation is not modelled. On an instance without a base URL or params, the URI is the url, and `Http.GetUri` is that.
- `CacheInterface` (src/cache-interface.ts) is not modelled as an interface. The builder holds an `InMemoryCache`, the one implementation in the repository.
- `Decorator` (src/types.ts:12) is a closed datatype of the three shipped decorators. Decorators written by users of the library are not modelled.
- Headers are case-sensitive maps. axios' `AxiosHeaders` compares names case-insensitively, and that is not modelled.
- SvelteKit cookies are modelled as a map. The `{path: "/"}` cookie options and the `Set-Cookie` output are not modelled.
- Real time is not modelled: `setTimeout`'s delay (`ttl * 1000`) is recorded as the token's `ttl`, and firing is the explicit `Expire` event.
- `Client.Client.Cache`: the TTL is a real number, so fractional TTLs such as `cache(0.5)` are modelled; NaN and the infinities, which a JavaScript number also admits, are not.
- `Object.assign` with a field explicitly set to `undefined` is not modelled: an option is either supplied or absent.
- `query(undefined)` and `body(undefined)` are not modelled; `Query` and `Body` take a value.
- The TypeScript capability types (`IClient<R> & IClientWithCache`, `IClientWithBody`) are not modelled. They restrict at compile time which setters a caller may use, and they are not behaviour. `Factory.Make` states the flags that each factory member sets.
- Concurrent `call`s racing on one cache key are not modelled. The model is sequential.
- src/types.ts and index.ts hold only declarations and re-exports.
