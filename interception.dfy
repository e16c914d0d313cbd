/** The fetch interceptor (`handleFetchResponse`) and the debug-result helper
    (`getDebugResult`). The ambient store is an explicit `Option<LogStore>` argument. */
module Interception {
  import opened Values
  import opened Results
  import opened LogEntries
  import opened LogContext

  /** JavaScript truthiness of the optional request target: `undefined` and the empty
      string are falsy, any `URL` or `Request` object is truthy. */
  predicate Truthy(requestUrl: Option<RequestTarget>)
  {
    requestUrl.Some? && requestUrl.value != UrlString("")
  }

  /** `String(target)` as JavaScript computes it: `Request` does not override
      `toString`, so a request object prints as a placeholder. */
  function TargetText(target: RequestTarget): string
  {
    match target
    case UrlString(s) => s
    case UrlObject(href) => href
    case RequestObject(_) => "[object Request]"
  }

  /** The URL a target addresses. */
  function TargetUrl(target: RequestTarget): string
  {
    match target
    case UrlString(s) => s
    case UrlObject(href) => href
    case RequestObject(url) => url
  }

  /** `(requestUrl || res.url).toString()` as written. */
  function EntryUrlAsWritten(requestUrl: Option<RequestTarget>, res: Response): (u: string)
    ensures Truthy(requestUrl) ==> u == TargetText(requestUrl.value)
    ensures !Truthy(requestUrl) ==> u == res.url
  {
    if Truthy(requestUrl) then TargetText(requestUrl.value) else res.url
  }

  /** As written, a fetch made with a `Request` object is logged under the placeholder,
      not under the URL it requested. */
  lemma RequestObjectLoggedAsPlaceholder(res: Response)
    ensures EntryUrlAsWritten(Some(RequestObject("https://example.test/api/data/1")), res)
         != "https://example.test/api/data/1"
  {
  }

  /** The entry URL used by this model: the requested URL whenever one is supplied (the
      request wins over the response's own URL), otherwise the response URL. */
  function EntryUrl(requestUrl: Option<RequestTarget>, res: Response): (u: string)
    ensures Truthy(requestUrl) ==> u == TargetUrl(requestUrl.value)
    ensures !Truthy(requestUrl) ==> u == res.url
  {
    if Truthy(requestUrl) then TargetUrl(requestUrl.value) else res.url
  }

  /** The corrected URL agrees with the code as written on every target except a
      `Request` object, and for that one it is the request's own URL. */
  lemma EntryUrlCorrectsOnlyRequestObjects(requestUrl: Option<RequestTarget>, res: Response)
    ensures (requestUrl.Some? && requestUrl.value.RequestObject?)
            || EntryUrl(requestUrl, res) == EntryUrlAsWritten(requestUrl, res)
    ensures requestUrl.Some? && requestUrl.value.RequestObject? ==>
              EntryUrl(requestUrl, res) == requestUrl.value.url
  {
  }

  /** The stores an interception may touch: the active one, if any. */
  function Footprint(active: Option<LogStore>): set<object>
  {
    if active.Some? then {active.value} else {}
  }

  /** `handleFetchResponse(res, requestUrl, init)` once the cloned body has been read
      (`resultBody`). With no active store nothing changes; with one, exactly one entry is
      appended. Either way the response is handed back as it came. */
  method HandleFetchResponse(active: Option<LogStore>, parse: Parser, res: Response,
                             requestUrl: Option<RequestTarget>, init: Option<RequestInit>,
                             resultBody: Option<string>) returns (r: Response)
    modifies Footprint(active)
    ensures r == res
    ensures active.Some? ==>
              active.value.entries
              == old(active.value.entries) + [CreateLogEntry(parse, EntryUrl(requestUrl, res), res, init, resultBody)]
  {
    if active.Some? {
      var entry := CreateLogEntry(parse, EntryUrl(requestUrl, res), res, init, resultBody);
      active.value.Set(entry);
    }
    r := res;
  }

  /** One intercepted fetch that completed: its arguments, its response, and the outcome
      of reading the cloned body. */
  datatype FetchCall = FetchCall(requestUrl: Option<RequestTarget>, init: Option<RequestInit>,
                                 response: Response, resultBody: Option<string>)

  /** The action run by the debug-result helper: the intercepted fetches it completes, in
      the order their interceptions finish reading the cloned body (which is when each
      wrapped fetch resolves), and the result object it resolves with. */
  datatype Action<D, E> = Action(calls: seq<FetchCall>, outcome: ResultObject<D, E>)

  /** The entry one intercepted fetch contributes. */
  function EntryFor(parse: Parser, call: FetchCall): Entry
  {
    CreateLogEntry(parse, EntryUrl(call.requestUrl, call.response), call.response, call.init, call.resultBody)
  }

  /** The entries a sequence of intercepted fetches leaves in a store, one per fetch. */
  function Trail(parse: Parser, calls: seq<FetchCall>): (t: seq<Entry>)
    ensures |t| == |calls|
  {
    if calls == [] then []
    else Trail(parse, calls[..|calls| - 1]) + [EntryFor(parse, calls[|calls| - 1])]
  }

  /** The k-th entry of the trail belongs to the k-th completed fetch: its status is that
      response's status and its URL is that fetch's entry URL. */
  lemma {:induction false} TrailAt(parse: Parser, calls: seq<FetchCall>, k: nat)
    requires k < |calls|
    ensures Trail(parse, calls)[k] == EntryFor(parse, calls[k])
    ensures Trail(parse, calls)[k].status == calls[k].response.status
    ensures Trail(parse, calls)[k].url == EntryUrl(calls[k].requestUrl, calls[k].response)
  {
    if k < |calls| - 1 {
      TrailAt(parse, calls[..|calls| - 1], k);
    }
  }

  /** Running two actions one after the other logs the first one's entries, then the second's. */
  lemma {:induction false} TrailAppend(parse: Parser, first: seq<FetchCall>, second: seq<FetchCall>)
    ensures Trail(parse, first + second) == Trail(parse, first) + Trail(parse, second)
  {
    if second != [] {
      var last := |second| - 1;
      assert (first + second)[..|first + second| - 1] == first + second[..last];
      TrailAppend(parse, first, second[..last]);
    } else {
      assert first + second == first;
    }
  }

  /** The action's fetches, each passed through the interceptor with `store` active. */
  method RunAction(store: LogStore, parse: Parser, calls: seq<FetchCall>)
    modifies store
    ensures store.entries == old(store.entries) + Trail(parse, calls)
  {
    var i := 0;
    while i < |calls|
      invariant 0 <= i <= |calls|
      invariant store.entries == old(store.entries) + Trail(parse, calls[..i])
    {
      var call := calls[i];
      var _ := HandleFetchResponse(Some(store), parse, call.response, call.requestUrl, call.init, call.resultBody);
      assert calls[..i + 1][..i] == calls[..i];
      i := i + 1;
    }
    assert calls[..i] == calls;
  }

  /** `getDebugResult(action)`: run the action against a fresh, empty store and write the
      store's entries onto the `debug` field of the very object the action resolved with,
      then resolve with that object. The tag, payload and error stay as they were; the
      trail has one entry per intercepted fetch, in the order the interceptions finished;
      and nothing but that result object is modified, so no store that existed before is
      touched. */
  method GetDebugResult<D, E>(parse: Parser, action: Action<D, E>) returns (r: ResultObject<D, E>)
    modifies action.outcome
    ensures r == action.outcome
    ensures r.value.Success? <==> old(action.outcome.value).Success?
    ensures r.value.Success? ==> r.value.data == old(action.outcome.value).data
    ensures r.value.Failure? ==> r.value.error == old(action.outcome.value).error
    ensures r.value.debug == Some(Trail(parse, action.calls))
    ensures |r.value.debug.value| == |action.calls|
    ensures forall k :: 0 <= k < |action.calls| ==>
              r.value.debug.value[k] == EntryFor(parse, action.calls[k]) &&
              r.value.debug.value[k].status == action.calls[k].response.status
  {
    var store := new LogStore();
    RunAction(store, parse, action.calls);
    assert store.entries == [] + Trail(parse, action.calls) == Trail(parse, action.calls);
    var entries := GetApiLogEntries(Some(store));
    r := action.outcome;
    r.value := r.value.(debug := entries);
    forall k | 0 <= k < |action.calls|
      ensures r.value.debug.value[k] == EntryFor(parse, action.calls[k])
      ensures r.value.debug.value[k].status == action.calls[k].response.status
    {
      TrailAt(parse, action.calls, k);
    }
  }

  /** Two helper runs whose actions resolve with one shared object (a module-level
      `fail(...)`, or a failure handed on by `bind`) both write that object's `debug`: the
      first caller ends up holding the second run's entries. */
  method SharedResultCarriesLastTrail<D, E>(parse: Parser, first: seq<FetchCall>, second: seq<FetchCall>,
                                            shared: ResultObject<D, E>)
    returns (r1: ResultObject<D, E>, r2: ResultObject<D, E>)
    modifies shared
    ensures r1 == shared && r2 == shared
    ensures r1.value.debug == Some(Trail(parse, second))
  {
    r1 := GetDebugResult(parse, Action(first, shared));
    r2 := GetDebugResult(parse, Action(second, shared));
  }
}
