/** The two-case outcome wrapper of src/result.ts. */
module Results {
  import opened Types

  /** The status filter of `onSuccess`/`onFailure`: one status or an array of them. */
  datatype StatusFilter = Single(code: int) | Several(codes: seq<int>)
  {
    /** The set the filter is turned into (`new Set([p1])` or `new Set(p1)`). */
    function Codes(): (s: set<int>)
      ensures Single? ==> s == {code}
      ensures Several? ==> forall c :: c in s <==> c in codes
    {
      match this
      case Single(c) => {c}
      case Several(cs) => set c | c in cs
    }
  }

  /**
   * A completed request: `success` tells the case, `responseStatus` is absent when no
   * response was received, `responseData` is the payload (the response data on
   * Success, the transport error itself on Failure), `headers` may be absent.
   * The value is immutable; the hooks below only observe it.
   */
  datatype Result<V> = Result(success: bool, responseStatus: Option<int>, responseData: V,
                              headers: Option<map<string, string>>)
  {
    /** The `error` getter: the payload on Failure, `undefined` on Success. */
    function Error(): (e: Option<V>)
      ensures e.Some? <==> !success
      ensures e.Some? ==> e.value == responseData
    {
      if success then None else Some(responseData)
    }

    /** The `data` getter: the payload on Success, `undefined` on Failure. */
    function Data(): (d: Option<V>)
      ensures d.Some? <==> success
      ensures d.Some? ==> d.value == responseData
    {
      if success then Some(responseData) else None
    }

    /** The `status` getter: the recorded status, or 0 when none was recorded. */
    function Status(): (s: int)
      ensures responseStatus == Some(s) || (responseStatus == None && s == 0)
    {
      if responseStatus.None? then 0 else responseStatus.value
    }

    /** The `isSuccess` getter: it holds exactly when `data` is defined and `error` is not. */
    function IsSuccess(): (b: bool)
      ensures b <==> Data().Some?
      ensures b <==> Error().None?
    {
      success
    }

    /** The `isFailure` getter: exactly one of `isSuccess` and `isFailure` holds. */
    function IsFailure(): (b: bool)
      ensures b != IsSuccess()
    {
      !success
    }

    /** `getHeader(key)`: `undefined` without headers, otherwise the header's entry (case-sensitive). */
    function GetHeader(key: string): (v: Option<string>)
      ensures headers.None? ==> v == None
      ensures headers.Some? ==> (v.Some? <==> key in headers.value)
      ensures headers.Some? && v.Some? ==> v.value == headers.value[key]
    {
      if headers.None? then None else Lookup(headers.value, key)
    }

    /**
     * Whether a hook for the Success case (`forSuccess`) or the Failure case, given
     * `filter` (absent for the one-argument overload), runs its handler.
     */
    function HookRuns(forSuccess: bool, filter: Option<StatusFilter>): (b: bool)
      ensures b <==> && (if forSuccess then IsSuccess() else IsFailure())
                     && (filter.None? || Status() in filter.value.Codes())
    {
      success == forSuccess && (filter.None? || Status() in filter.value.Codes())
    }

    /** `evaluate()`: the data on Success, SvelteKit's `fail(status)` on Failure. */
    function Evaluate(): (e: Evaluation<V>)
      ensures e.Value? <==> IsSuccess()
      ensures e.Value? ==> Data() == Some(e.data)
      ensures e.ActionFailure? ==> e.status == Status()
    {
      if success then Value(responseData) else ActionFailure(Status())
    }
  }

  /** What `evaluate()` returns: the success payload or a tagged `fail(status)` value. */
  datatype Evaluation<V> = Value(data: V) | ActionFailure(status: int)

  /** A callback `(result: Result) => void`; it keeps every result it was invoked with. */
  class Handler<V> {
    var received: seq<Result<V>>

    constructor()
      ensures received == []
    {
      received := [];
    }

    method Invoke(r: Result<V>)
      modifies this
      ensures received == old(received) + [r]
    {
      received := received + [r];
    }
  }

  /**
   * `r.onSuccess(handler)` (filter absent) or `r.onSuccess(status, handler)`:
   * runs the handler once when `r` is a Success whose status passes the filter,
   * never otherwise, and returns `r` itself.
   */
  method OnSuccess<V>(r: Result<V>, filter: Option<StatusFilter>, handler: Handler<V>)
    returns (self: Result<V>)
    modifies handler
    ensures self == r
    ensures handler.received == old(handler.received) + (if r.HookRuns(true, filter) then [r] else [])
  {
    if r.IsSuccess() {
      var status: Option<set<int>>;
      if filter.Some? {
        status := Some(filter.value.Codes());
      } else {
        status := None;
      }
      if status.None? || r.Status() in status.value {
        handler.Invoke(r);
      }
    }
    self := r;
  }

  /** The mirror of `OnSuccess` for the Failure case. */
  method OnFailure<V>(r: Result<V>, filter: Option<StatusFilter>, handler: Handler<V>)
    returns (self: Result<V>)
    modifies handler
    ensures self == r
    ensures handler.received == old(handler.received) + (if r.HookRuns(false, filter) then [r] else [])
  {
    if r.IsFailure() {
      var status: Option<set<int>>;
      if filter.Some? {
        status := Some(filter.value.Codes());
      } else {
        status := None;
      }
      if status.None? || r.Status() in status.value {
        handler.Invoke(r);
      }
    }
    self := r;
  }

  /** The response part of an `AxiosError`: absent when no response was received. */
  datatype ErrorResponse = ErrorResponse(status: int, headers: map<string, string>)

  /**
   * How the transport's promise settles: it resolves with a response, it rejects
   * with an `AxiosError` (carrying a response or not), or it rejects with any
   * other value.
   */
  datatype Outcome<V> =
    | Resolved(status: int, data: V, headers: map<string, string>)
    | TransportError(error: V, response: Option<ErrorResponse>)
    | OtherError(error: V)

  /** What `Result.handle` yields: a wrapped result, or the error re-thrown to the caller. */
  datatype Handled<V> = Wrapped(result: Result<V>) | Rethrown(error: V)

  /**
   * `Result.handle`: a resolved response becomes a Success with its status,
   * data and headers; an `AxiosError` becomes a Failure carrying the error itself,
   * the response's status (0 without a response) and its headers; anything else
   * is re-thrown unchanged.
   */
  function Handle<V>(o: Outcome<V>): (h: Handled<V>)
    ensures h.Rethrown? <==> o.OtherError?
    ensures h.Rethrown? ==> h.error == o.error
    ensures o.Resolved? ==>
      && h.result.IsSuccess()
      && h.result.Status() == o.status
      && h.result.Data() == Some(o.data)
      && forall k :: h.result.GetHeader(k) == Lookup(o.headers, k)
    ensures o.TransportError? ==>
      && h.result.IsFailure()
      && h.result.Error() == Some(o.error)
      && h.result.Status() == (if o.response.Some? then o.response.value.status else 0)
      && forall k :: h.result.GetHeader(k) ==
           (if o.response.Some? then Lookup(o.response.value.headers, k) else None)
  {
    match o
    case Resolved(status, data, headers) =>
      Wrapped(Result(true, Some(status), data, Some(headers)))
    case TransportError(error, response) =>
      if response.Some? then
        Wrapped(Result(false, Some(response.value.status), error, Some(response.value.headers)))
      else
        Wrapped(Result(false, None, error, None))
    case OtherError(error) =>
      Rethrown(error)
  }
}
