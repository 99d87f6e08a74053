/**
 * The HTTP transport the client dispatches through (axios' `request.request(config)`),
 * reduced to a recorder of what was sent and an oracle for how each call settles.
 */
module Http {
  import opened Types
  import opened Results
  import opened Decorators

  /** The `AxiosRequestConfig` the client builds. */
  datatype RequestConfig<V> =
    RequestConfig(url: string, httpMethod: Method, data: Option<V>, params: Option<V>,
                  headers: map<string, string>)

  /** One transport call: the config together with the interceptors registered on the instance. */
  datatype Dispatch<V> =
    Dispatch(config: RequestConfig<V>, requestInterceptors: seq<RequestInterceptor>,
             responseInterceptors: seq<ResponseInterceptor>)

  /**
   * `request.getUri({url})` on an instance made by `axios.create()` with no
   * defaults: with no base URL and no `params`, the URI is the url itself.
   * Only the url is passed, so the query never reaches the key.
   */
  function GetUri(url: string): (key: string)
    ensures key == url
  {
    url
  }

  /**
   * The transport. `respond` says how the n-th call settles given what was sent;
   * `sent` records every call in order, so `|sent|` counts them.
   */
  class Transport<V> {
    const respond: (Dispatch<V>, nat) -> Outcome<V>
    var sent: seq<Dispatch<V>>

    constructor(respond: (Dispatch<V>, nat) -> Outcome<V>)
      ensures this.respond == respond && sent == []
    {
      this.respond := respond;
      sent := [];
    }

    /** `request.request(config)`: one call, recorded, settling as `respond` says. */
    method Request(d: Dispatch<V>) returns (o: Outcome<V>)
      modifies this
      ensures sent == old(sent) + [d]
      ensures o == respond(d, |old(sent)|)
    {
      o := respond(d, |sent|);
      sent := sent + [d];
    }
  }
}
