# Per-request fetch logging, modelled in Dafny

This project models the core of `lib/debug-fetch.ts`, a small library that records every
intercepted `fetch` made while one request is handled. It then attaches those records to the
result the request handler returns. The core has four parts:

- **Result container** (`Results`, `results.dfy`). A tagged success/failure value with an
  optional `debug` trail. It comes with the constructors `ok`, `fail` and `empty`, and with
  `bind`, which short-circuits on failure. `bind(fn)(result)` is curried in the source; here
  it is the uncurried `Bind(fn, result)`.
- **Log entry builder** (`LogEntries`, `log_entry.dfy`). `tryParseJson` and `createLogEntry`.
  `JSON.parse` is a parameter `parse: string -> Option<Json>`, where `None` means "throws".
  The outcome of reading the cloned response body is an input `Option<string>`, where `None`
  means "the read threw".
- **Log store** (`LogContext`, `log_context.dfy`). The closure built by `createApiLogContext`
  is a class `LogStore` with a `seq<Entry>` field. `set` appends one entry and `get` returns
  a copy. `getApiLogEntries` takes the active store as an explicit `Option<LogStore>`.
- **Interception and draining** (`Interception`, `interception.dfy`).
  - `handleFetchResponse` appends exactly one entry when a store is active. It changes
    nothing when no store is active, and it always returns the response unchanged.
  - `getDebugResult` runs an action against a fresh, empty store, then writes the store's
    entries onto the `debug` field of the object the action resolved with. The tag, the
    payload and the error stay as they were. The resolved result is an object
    (`ResultObject`), so the write is seen by every holder of that object.
  - The action is modelled as the list of intercepted fetches it completes, plus the result
    object it resolves with. The fetches are listed in the order their interceptions finish
    reading the cloned response body, which is also when each wrapped fetch resolves.

The entry URL is `requestUrl` when that is truthy, otherwise `res.url`
(`lib/debug-fetch.ts:141`). So for a redirected fetch the entry carries the URL that was
asked for, not `res.url`, the URL finally fetched. The model keeps that preference. For a
`Request` object it logs the request's URL rather than the placeholder the code prints (see
"## Findings").

## Model

| member | source | states |
|---|---|---|
| `Results.Ok` | lib/debug-fetch.ts:23-27 | `ok(d)` is a success whose data is `d` and which carries no debug trail |
| `Results.Fail` | lib/debug-fetch.ts:17-21 | `fail(e)` is a failure whose error is `e` and which carries no debug trail |
| `Results.Empty` | lib/debug-fetch.ts:32 | `empty()` is a success with the `undefined` payload and no debug trail |
| `Results.Bind` | lib/debug-fetch.ts:33-36 | on a success, `bind(fn)` is `fn(data)`; on a failure, it hands the failure on with the same error and debug trail |
| `Results.BindFailureIgnoresFn` | lib/debug-fetch.ts:33-36 | a failure never reaches `fn`: binding any two functions onto it gives the same value |
| `Results.BindOk` | lib/debug-fetch.ts:25-26 | binding onto `ok(d)` is `fn(d)` (left identity) |
| `Results.BindFail` | lib/debug-fetch.ts:19-20 | binding anything onto `fail(e)` gives `fail(e)` |
| `Results.BindOkIdentity` | lib/debug-fetch.ts:33-36 | binding `ok` onto a result without a debug trail gives back that result (right identity) |
| `Results.BindAssociative` | lib/debug-fetch.ts:33-36 | two binds in a row equal one bind of the composed step |
| `LogEntries.TryParseJson` | lib/debug-fetch.ts:86-97 | succeeds exactly when the value is a string that parses, and then carries the parsed document; every non-string value and every parse error gives `fail()` |
| `LogEntries.CreateLogEntry` | lib/debug-fetch.ts:99-125 | `url`, `status` and `method` are copied. `input` is the parsed request body when it is text that parses, otherwise the raw body, and absent when there is no body. `output` is present exactly when the body read succeeded and the text parses |
| `LogEntries.FailedReadOnlyDropsOutput` | lib/debug-fetch.ts:106-123 | a body read that throws does not propagate: the entry equals the one a successful read gives, minus `output` |
| `LogEntries.UnparsableOutputIsAbsent` | lib/debug-fetch.ts:116-123 | response text that does not parse is logged exactly like a failed read |
| `LogContext.LogStore.constructor` | lib/debug-fetch.ts:49-50 | a new store holds no entries |
| `LogContext.LogStore.Set` | lib/debug-fetch.ts:53-55 | `set(e)` leaves the old entries, in order, followed by `e`, and grows the store by exactly one |
| `LogContext.LogStore.Get` | lib/debug-fetch.ts:56 | `get()` returns the current entries in insertion order |
| `LogContext.GetApiLogEntries` | lib/debug-fetch.ts:80-84 | `undefined` when no store is active, otherwise the active store's entries |
| `LogContext.SnapshotThenSet` | lib/debug-fetch.ts:53-56 | a snapshot taken before a `set` still holds the old entries, and only the store gains the new one |
| `Interception.EntryUrlAsWritten` | lib/debug-fetch.ts:141 | the entry URL as JavaScript evaluates the code: the stringified request target when it is truthy, otherwise `res.url` |
| `Interception.RequestObjectLoggedAsPlaceholder` | lib/debug-fetch.ts:141 | as written, a fetch made with a `Request` object is not logged under its URL |
| `Interception.EntryUrl` | lib/debug-fetch.ts:141 | the request target's URL when a truthy target is supplied (the request wins over the response), otherwise `res.url` |
| `Interception.EntryUrlCorrectsOnlyRequestObjects` | lib/debug-fetch.ts:141 | the corrected URL differs from the as-written one only for `Request` objects, and for those it is the request's own URL |
| `Interception.HandleFetchResponse` | lib/debug-fetch.ts:132-146 | returns `res` unchanged. With no active store it modifies nothing. With an active store it appends exactly one entry, built from `res`, `init`, the body read and the corrected entry URL (`EntryUrl`) |
| `Interception.Trail` | lib/debug-fetch.ts:137-143 | a sequence of intercepted fetches leaves exactly one entry per fetch |
| `Interception.TrailAt` | lib/debug-fetch.ts:137-143 | the k-th entry belongs to the k-th completed fetch: same status, and URL chosen by the entry-URL rule |
| `Interception.TrailAppend` | lib/debug-fetch.ts:53-55 | fetches completed one batch after another are logged as the first batch's entries followed by the second's |
| `Interception.RunAction` | lib/debug-fetch.ts:70-71 | running the action through the interceptor extends the store by exactly the action's trail |
| `Interception.GetDebugResult` | lib/debug-fetch.ts:66-76 | resolves with the very object the action resolved with, and modifies nothing else. That object keeps its tag, data and error. Its `debug` is written in place with the trail of a fresh, empty store: one entry per intercepted fetch, in the order the interceptions finished, each with that fetch's status |
| `Interception.SharedResultCarriesLastTrail` | lib/debug-fetch.ts:71-73 | two helper runs whose actions resolve with one shared object both return that object, and its `debug` holds the second run's entries, so the first caller sees them |

## Findings

| source | as written | input that shows it | evidently intended | confidence | as-written member | corrected member |
|---|---|---|---|---|---|---|
| lib/debug-fetch.ts:141 | the entry URL expression stringifies a `Request` object to `"[object Request]"`, since `Request` has no `toString` of its own | `handleFetchResponse(res, new Request("https://example.test/api/data/1"))`, or `fetchWithDebugData(new Request(...))`, is logged with url `"[object Request]"` | log the URL the request addresses (`request.url`) | not executed; high | `Interception.EntryUrlAsWritten`, `Interception.RequestObjectLoggedAsPlaceholder` | `Interception.EntryUrl`, `Interception.EntryUrlCorrectsOnlyRequestObjects` |

## Left out

- The `AsyncLocalStorage` binding (lib/debug-fetch.ts:1, 62-64, 78) is left out. It is
  task-local state that survives async suspension, which is a concurrency concern. The active
  store is an explicit `Option<LogStore>` argument instead. `withApiLogContext` and
  `getApiLogContext` are folded into `GetDebugResult`, which creates and owns the store.
- Isolation between concurrently running helpers is captured only sequentially.
  `GetDebugResult` modifies no store that existed before it ran. Two runs can still mix
  entries through a shared result object, as `SharedResultCarriesLastTrail` shows.
- The order of entries is an input: it is the order of `Action.calls`. That is the order in
  which each interception finishes reading the cloned body (lib/debug-fetch.ts:109, 141), not
  the order in which the underlying responses arrive. A fetch that resolves first but has a
  larger body can be logged second.
- Interception.HandleFetchResponse, and through it `Trail`, `RunAction` and `GetDebugResult`,
  builds entries with the corrected URL rule `EntryUrl`, not with `EntryUrlAsWritten`. For
  a `Request` target the model logs the request's URL where lib/debug-fetch.ts:141 logs
  `"[object Request]"`. For every other target the two agree
  (`EntryUrlCorrectsOnlyRequestObjects`).
- Network I/O is left out: `fetch`, `res.clone()`, `resultClone.text()` and the wrapper
  `fetchWithDebugData` (lib/debug-fetch.ts:104-109, 127-130).
  - The response is a value, and the body read is an `Option<string>` input.
  - That the returned response's body stream stays unread is not modelled beyond returning
    `res` itself.
- `JSON.parse` is an abstract parameter, and only the branching around it is modelled. JSON
  numbers are integers, so floating point is not modelled.
- The `console.log` diagnostics (lib/debug-fetch.ts:94, 112) are left out because they only
  produce output.
- Promise plumbing in `getDebugResult` (lib/debug-fetch.ts:69-75) is left out. This includes
  the case where the action rejects, which leaves the outer promise pending. The action is a
  script that always resolves.
- Snapshots are values (`seq`). The fresh JavaScript array that `Array.from` returns, and its
  identity, are not modelled. Non-aliasing is stated as `SnapshotThenSet`.
- When the first fetch argument is a `Request` object, the request's own method and body are
  not consulted. This matches the source, which reads `init` only.
- app/debug/page.tsx and app/api/data/[id]/route.ts are not part of this model. They are a
  demo page (timing, an environment variable, rendering) and a static route handler.
