/**
 * The shared configuration of src/builder.ts: the normalised base URL, the two
 * decorator lists and the cache service, plus the pure parts of `compose` (URL
 * joining and option defaulting) and the table of factory members. `compose`
 * itself and the factory members, which create clients, are in module Factory.
 */
module Builder {
  import opened Types
  import opened Results
  import opened Caching
  import opened Decorators

  /** `s.replace(/\/+$/, '')`: the longest prefix of `s` that does not end in '/'. */
  function TrimTrailingSlashes(s: string): (r: string)
    ensures |r| <= |s| && r == s[..|r|]
    ensures r == [] || r[|r| - 1] != '/'
    ensures forall i :: |r| <= i < |s| ==> s[i] == '/'
  {
    if s != [] && s[|s| - 1] == '/' then TrimTrailingSlashes(s[..|s| - 1]) else s
  }

  /** `s.replace(/^\/+/, '')`: the longest suffix of `s` that does not start with '/'. */
  function TrimLeadingSlashes(s: string): (r: string)
    ensures |r| <= |s| && r == s[|s| - |r|..]
    ensures r == [] || r[0] != '/'
    ensures forall i :: 0 <= i < |s| - |r| ==> s[i] == '/'
  {
    if s != [] && s[0] == '/' then TrimLeadingSlashes(s[1..]) else s
  }

  /** Trimming twice trims nothing more: a stored base URL is already in normal form. */
  lemma TrimIsIdempotent(s: string)
    ensures TrimTrailingSlashes(TrimTrailingSlashes(s)) == TrimTrailingSlashes(s)
    ensures TrimLeadingSlashes(TrimLeadingSlashes(s)) == TrimLeadingSlashes(s)
  {
  }

  /** The url `compose` gives a client: `baseUrl + '/' + path-without-leading-slashes`. */
  function ComposeUrl(baseUrl: string, path: string): (url: string)
    ensures |url| == |baseUrl| + 1 + |TrimLeadingSlashes(path)|
    ensures url[..|baseUrl|] == baseUrl && url[|baseUrl|] == '/'
    ensures url[|baseUrl| + 1..] == TrimLeadingSlashes(path)
    ensures |url| > |baseUrl| + 1 ==> url[|baseUrl| + 1] != '/'
  {
    baseUrl + "/" + TrimLeadingSlashes(path)
  }

  /**
   * With a base URL as the constructor leaves it, the join point of a composed url
   * holds exactly one '/': the base does not end in one and the path part does not
   * start with one; the base and the path's non-slash part are kept intact.
   */
  lemma ComposeUrlJoinsWithOneSlash(rawBase: string, path: string)
    ensures var base := TrimTrailingSlashes(rawBase);
            var url := ComposeUrl(base, path);
            && url[..|base|] == base
            && url[|base|] == '/'
            && (|base| > 0 ==> url[|base| - 1] != '/')
            && (|url| > |base| + 1 ==> url[|base| + 1] != '/')
            && url[|base| + 1..] == TrimLeadingSlashes(path)
  {
  }

  /** The `options` argument of `compose`: each flag may be left out. */
  datatype ComposeOptions = ComposeOptions(auth: Option<bool>, cache: Option<bool>, format: Option<BodyFormat>)

  /** The options once defaulted. */
  datatype ClientOptions = ClientOptions(auth: bool, cache: bool, format: BodyFormat)

  /** The defaulting in `compose`: a missing flag is false and a missing format is none; supplied ones are kept. */
  function WithDefaults(o: ComposeOptions): (r: ClientOptions)
    ensures r.auth <==> o.auth == Some(true)
    ensures r.cache <==> o.cache == Some(true)
    ensures o.format.Some? ==> r.format == o.format.value
    ensures o.format.None? ==> r.format == NoFormat
  {
    ClientOptions(o.auth == Some(true), o.cache == Some(true),
                  if o.format.Some? then o.format.value else NoFormat)
  }

  /** The factory members of ApiBuilder: `get`, `delete`, ..., `json.post`, ..., `auth.form.patch`. */
  datatype Endpoint =
    | Get | Delete | Post | Put | Patch
    | JsonPost | JsonPut | JsonPatch
    | FormPost | FormPut | FormPatch
    | AuthGet | AuthDelete | AuthPost | AuthPut | AuthPatch
    | AuthJsonPost | AuthJsonPut | AuthJsonPatch
    | AuthFormPost | AuthFormPut | AuthFormPatch
  {
    /** The member is one of `auth.*`. */
    predicate UnderAuth()
    {
      match this
      case Get | Delete | Post | Put | Patch | JsonPost | JsonPut | JsonPatch | FormPost | FormPut | FormPatch => false
      case _ => true
    }

    /** The member is one of `json.*` or `auth.json.*`. */
    predicate UnderJson()
    {
      match this
      case JsonPost | JsonPut | JsonPatch | AuthJsonPost | AuthJsonPut | AuthJsonPatch => true
      case _ => false
    }

    /** The member is one of `form.*` or `auth.form.*`. */
    predicate UnderForm()
    {
      match this
      case FormPost | FormPut | FormPatch | AuthFormPost | AuthFormPut | AuthFormPatch => true
      case _ => false
    }

    /** The verb a factory member's name ends with. */
    function Verb(): Method
    {
      match this
      case Get | AuthGet => GET
      case Delete | AuthDelete => DELETE
      case Post | JsonPost | FormPost | AuthPost | AuthJsonPost | AuthFormPost => POST
      case Put | JsonPut | FormPut | AuthPut | AuthJsonPut | AuthFormPut => PUT
      case Patch | JsonPatch | FormPatch | AuthPatch | AuthJsonPatch | AuthFormPatch => PATCH
    }
  }

  /**
   * The method and the options each factory member passes to `compose`. Once defaulted:
   * only `get` asks for the cache, exactly the `auth.*` members ask for auth, and the
   * format follows the name (`json` gives JSON, `form` gives FormData, else none).
   */
  function EndpointCompose(e: Endpoint): (r: (Method, ComposeOptions))
    ensures r.0 == e.Verb()
    ensures WithDefaults(r.1).cache <==> e == Get
    ensures WithDefaults(r.1).auth <==> e.UnderAuth()
    ensures WithDefaults(r.1).format == (if e.UnderJson() then JSON else if e.UnderForm() then FormData else NoFormat)
  {
    match e
    case Get => (GET, ComposeOptions(None, Some(true), None))
    case Delete => (DELETE, ComposeOptions(None, None, None))
    case Post => (POST, ComposeOptions(None, None, None))
    case Put => (PUT, ComposeOptions(None, None, None))
    case Patch => (PATCH, ComposeOptions(None, None, None))
    case JsonPost => (POST, ComposeOptions(None, None, Some(JSON)))
    case JsonPut => (PUT, ComposeOptions(None, None, Some(JSON)))
    case JsonPatch => (PATCH, ComposeOptions(None, None, Some(JSON)))
    case FormPost => (POST, ComposeOptions(None, None, Some(FormData)))
    case FormPut => (PUT, ComposeOptions(None, None, Some(FormData)))
    case FormPatch => (PATCH, ComposeOptions(None, None, Some(FormData)))
    case AuthGet => (GET, ComposeOptions(Some(true), None, None))
    case AuthDelete => (DELETE, ComposeOptions(Some(true), None, None))
    case AuthPost => (POST, ComposeOptions(Some(true), None, None))
    case AuthPut => (PUT, ComposeOptions(Some(true), None, None))
    case AuthPatch => (PATCH, ComposeOptions(Some(true), None, None))
    case AuthJsonPost => (POST, ComposeOptions(Some(true), None, Some(JSON)))
    case AuthJsonPut => (PUT, ComposeOptions(Some(true), None, Some(JSON)))
    case AuthJsonPatch => (PATCH, ComposeOptions(Some(true), None, Some(JSON)))
    case AuthFormPost => (POST, ComposeOptions(Some(true), None, Some(FormData)))
    case AuthFormPut => (PUT, ComposeOptions(Some(true), None, Some(FormData)))
    case AuthFormPatch => (PATCH, ComposeOptions(Some(true), None, Some(FormData)))
  }

  /**
   * The process-wide configuration clients read when they are called: the base URL,
   * always-applied decorators, auth-only decorators and the optional cache service.
   */
  class ApiBuilder<V> {
    var decorators: seq<Decorator>
    var cacheService: InMemoryCache?<Result<V>>
    var authDecorators: seq<Decorator>
    const baseUrl: string

    /** `new ApiBuilder(baseUrl)`: strips every trailing '/' from the base URL. */
    constructor(baseUrl: string)
      ensures this.baseUrl == TrimTrailingSlashes(baseUrl)
      ensures decorators == [] && authDecorators == [] && cacheService == null
    {
      this.baseUrl := TrimTrailingSlashes(baseUrl);
      decorators := [];
      authDecorators := [];
      cacheService := null;
    }

    /** `addAuthDecorator(d)`: appends to the auth-only list. */
    method AddAuthDecorator(d: Decorator)
      modifies this`authDecorators
      ensures authDecorators == old(authDecorators) + [d]
    {
      authDecorators := authDecorators + [d];
    }

    /** `getAuthDecorators()`. */
    function GetAuthDecorators(): (ds: seq<Decorator>)
      reads this
      ensures ds == authDecorators
    {
      authDecorators
    }

    /** `setCacheService(c)`: replaces the cache service. */
    method SetCacheService(c: InMemoryCache<Result<V>>)
      modifies this`cacheService
      ensures cacheService == c
    {
      cacheService := c;
    }

    /** `getCacheService()`: the last service set, or `undefined`. */
    function GetCacheService(): (c: InMemoryCache?<Result<V>>)
      reads this
      ensures c == cacheService
    {
      cacheService
    }

    /** `addDecorator(d)`: appends to the always-applied list. */
    method AddDecorator(d: Decorator)
      modifies this`decorators
      ensures decorators == old(decorators) + [d]
    {
      decorators := decorators + [d];
    }

    /** `getDecorators()`. */
    function GetDecorators(): (ds: seq<Decorator>)
      reads this
      ensures ds == decorators
    {
      decorators
    }
  }
}
