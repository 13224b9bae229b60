# configurable-http-client in Dafny

A model of `httpClient`, the immutable, chainable request configurator in
front of a `fetch`-shaped transport. It covers three parts:

- **The configuration store.** A client is a map from property names to overrides (`values`). A fixed table of default factories sits behind it.
  - `value(name)` returns a truthy override, else the registered default, and throws for an unregistered name that has no truthy override.
  - `newWithValue` replaces one override.
  - `newWithMergedValue` shallow-merges an object into the current value (`Object.assign`).
  - The setters that `defineValue`/`defineMergedValue` install become one `Set` per key of the `Key` enum: `fetch`, `onResponse`, `onSuccess`, `onErrorResponse`, `onConnectionError`, `onStatusCallbacks`, `requestOptions` and `url`.
  - `onStatus` and `request` are built on those setters.
- **Dispatch.** `run` resolves the url, the options and the transport, then rewrites the options for a JSON body. It makes one transport call and routes the outcome:
  - A delivered response goes to exactly one handler. The order is the status callback, then `onSuccess`/`onErrorResponse`, then `onResponse`. Each step tests truthiness, as `||` does.
  - A transport whose promise rejects goes to `onConnectionError`, the rejection argument of the same `then`.
  - A transport that throws when called makes `run` throw synchronously, before any `then` is attached, so `onConnectionError` never sees that error.
- **JavaScript semantics the client relies on.** These are truthiness, own enumerable properties, `Object.assign`, property reads, and the integer-to-key conversion used by `obj[status]`.

Modules: `Wrappers` (Option/Result), `JsValues`, `PropertyKeys`,
`ClientConfig` (the store) with its properties in `ClientConfigLaws`,
`Dispatch` with `DispatchLaws`, `Scenarios` (concrete builder chains), and
`HeaderAliasing` (the finding below).

Collaborators become parameters:

- `global.fetch` is the field of a `Global` record.
- `JSON.stringify` is a function `ser: Val -> string`.
- The transport's behaviour is a function from the call it receives (`TransportCall`) to what calling it does. It either returns a promise that settles as `Delivered(response)` or `Failed(error)`, or it throws (`Threw(error)`).
- User handlers are opaque identifiers. `HandedTo(id, arg)` means the returned promise settles exactly as handler `id` does on `arg`, whether it returns or throws.
- The default factories' `x => x` is the distinguished function `Identity`.

## Where the code and the intended design differ (the model follows the code)

- The default `onConnectionError` is `err => err`. A transport failure therefore fulfils the returned promise with the error; it does not reject it (`src/httpClient.js:98`).
- A `null` sub-entry in a merge is stored as `null`, not deleted (`Object.assign`, line 40). Clearing a status callback still works because lookups test truthiness.
- There is no `onBeforeRun` hook. The transport key is `fetch` and the error slot is `onErrorResponse`.
- Resolution never fails for a registered key. An unset url, or a falsy one, reads as `null` and is passed to the transport. There is no configuration error before dispatch.
- Through the default `onResponse`, `runRequest` fulfils with the response object itself, not with its body.
- Any truthy value counts as an override or as a chosen handler. A truthy non-function handler chosen for a delivered response makes the returned promise reject with a TypeError (`NotAFunction`). A non-function `onConnectionError` is ignored by `then`, so a transport rejection passes through unchanged (`RejectedWith`). A non-function transport throws synchronously from `run` (`FetchNotCallable`), and so does a transport that throws when called (`TransportThrew`).

## Model

| member | source | states |
|---|---|---|
| PropertyKeys.IntToStringInjective | src/httpClient.js:103-107 | the key written by `argument[status]` and the key read by `callbacks[resp.status]` coincide only for equal statuses |
| PropertyKeys.NatToString | src/httpClient.js:105 | an integer's property key is a non-empty digit string, one digit long exactly below 10, ending in the last decimal digit |
| JsValues.Assign | src/httpClient.js:40 | `Object.assign({}, a, b)` holds the keys of both; entries of `b` win, other entries of `a` are kept |
| ClientConfig.Name | src/httpClient.js:94-101 | every registered key's property name looks up that same key in the vocabulary |
| ClientConfig.Value | src/httpClient.js:5-13 | `value` returns a truthy override as is; else a registered name's default factory result; it throws exactly for a name with neither, with message "value NAME not found" |
| ClientConfig.Resolve | src/httpClient.js:5-13 | the per-key reading agrees with `value` on the key's name; without a truthy override it is the key's default; it is truthy whenever the key's default is |
| ClientConfig.Default | src/httpClient.js:94-101 | fetch defaults to `global.fetch`; among the others exactly `onSuccess`, `onErrorResponse` and `url` default to a falsy value; the merge keys default to an empty object |
| ClientConfigLaws.FalsyOverrideIsIgnored | src/httpClient.js:6 | an override counts exactly when it is truthy: a stored falsy value reads as the default, a truthy one as itself |
| JsValues.FalsyValues | src/httpClient.js:6 | the falsy values are exactly `undefined`, `null`, `false`, `0` and `""` |
| ClientConfig.OnStatus | src/httpClient.js:103-107 | `onStatus(s, cb)` changes only the status table, and the entry read for `s` afterwards is `cb` |
| ClientConfig.Request | src/httpClient.js:52-56 | `request(u, o)` changes only the url and options overrides; the url override is `u`; the options' own properties are the old ones merged with `o` |
| ClientConfig.StatusEntry | src/httpClient.js:45 | the result is the status table's own entry under the status's key, and `undefined` when there is none or no table is set |
| ClientConfig.NewWithValue | src/httpClient.js:31-36 | the new record stores `v` under the key and every other override exactly as before |
| ClientConfig.NewWithMergedValue | src/httpClient.js:38-42 | throws exactly when `value` does; otherwise stores an object with the keys of both the old value and the partial, where the partial's entries win and the rest keep their value, and changes no other override |
| ClientConfig.Set | src/httpClient.js:15-29 | the synthesised setter replaces a scalar key's override, stores the merge of the current value with the partial for a merge key, and leaves every other override alone |
| ClientConfigLaws.UnconfiguredDefaults | src/httpClient.js:94-101 | with no overrides: fetch is `global.fetch`, `onResponse` and `onConnectionError` are identity, the success/error slots and url are `null`, both tables are `{}` |
| ClientConfigLaws.RegisteredKeysResolve | src/httpClient.js:15-16 | every registered key resolves on every client; an unset url is `null`; only unregistered names fail |
| ClientConfigLaws.SetReadBack | src/httpClient.js:15-29 | after a set, a scalar key reads as the value (or its default when the value is falsy), and a merge key reads as the old value merged with the partial |
| ClientConfigLaws.SetFrame | src/httpClient.js:31-36 | a setter never changes another key's resolved value or presence |
| ClientConfigLaws.MergeSubEntries | src/httpClient.js:38-42 | sub-entries named by the partial take its value, `null` included, and stay present; unnamed sub-entries keep their presence and value |
| ClientConfigLaws.MergeIntoUnset | src/httpClient.js:22-24 | merging into a key never set starts from the default `{}` |
| ClientConfigLaws.OnStatusTouchesOneStatus | src/httpClient.js:103-107 | `onStatus(s, cb)` stores `cb` under `s`, leaves every other status's callback and every other key unchanged |
| ClientConfigLaws.SettersCommute | src/httpClient.js:31-42 | builder calls on different keys give the same client in either order |
| ClientConfigLaws.SetIdempotent | src/httpClient.js:31-42 | repeating a builder call with the same argument gives the same client |
| ClientConfigLaws.ScalarLastWriteWins | src/httpClient.js:31-36 | two sets of a scalar key equal the last one alone |
| ClientConfigLaws.MergesCompose | src/httpClient.js:38-42 | two merges into a key equal one merge of the combined partials |
| ClientConfigLaws.RequestSetsUrlAndMergesOptions | src/httpClient.js:52-56 | `request(u, o)` reads back `u` as the url (`null` if falsy), merges `o` into the options, leaves the other keys alone, and without `o` keeps every option |
| Dispatch.FindCallbackByStatus | src/httpClient.js:44-46 | the lookup is the status table's entry under `String(resp.status)`, and `undefined` when the table has no such key or is not set |
| Dispatch.FindCallbackBySuccess | src/httpClient.js:48-50 | the result is the truthy override of `onSuccess` (ok) or `onErrorResponse` (not ok) exactly when that override is set, and the `null` default otherwise |
| Dispatch.Prepare | src/httpClient.js:62-80 | throws only for a non-function transport; the url sent is truthy or `null`; the options sent never carry a truthy `json_body` |
| Dispatch.Invoke | src/httpClient.js:87 | calling a handler is a TypeError exactly when it is not a function, and is never a pass-through rejection |
| Dispatch.OnRejected | src/httpClient.js:88 | a non-function rejection handler is ignored and the rejection passes through unchanged; it never causes a TypeError |
| Dispatch.Settle | src/httpClient.js:80-88 | a pass-through rejection happens only for a failed transport and carries its error; a TypeError happens only for a delivered response |
| Dispatch.Run | src/httpClient.js:62-91 | `run` throws `FetchNotCallable` exactly when the transport is not a function, and `TransportThrew(e)` only when the transport threw `e` on the call |
| Dispatch.RunRequest | src/httpClient.js:58-60 | `runRequest` throws `FetchNotCallable` exactly when the client's transport is not a function |
| Dispatch.SelectHandler | src/httpClient.js:82-85 | a delivered response always gets a truthy handler |
| Dispatch.SendOptions | src/httpClient.js:67-78 | with a truthy `json_body` the JSON rewrite is sent; otherwise a copy of the stored options' own properties, unchanged |
| Dispatch.JsonOptions | src/httpClient.js:69-78 | the JSON rewrite: `body` is the serialised `json_body`, `headers` are the stored headers plus `Content-Type: application/json; charset=utf-8`, `json_body` is gone, every other option is unchanged |
| DispatchLaws.SelectionPrecedence | src/httpClient.js:44-50 | a truthy status callback wins; else a truthy `onSuccess` (ok) or `onErrorResponse` (not ok); else `onResponse` |
| DispatchLaws.StatusCallbackWins | src/httpClient.js:82-87 | after `onStatus(s, h)` a response with status `s` is handed to `h`, whatever the other handlers are |
| DispatchLaws.SlotBeatsOnResponse | src/httpClient.js:82-85 | with no status callback, a set success/error slot is chosen over `onResponse` |
| DispatchLaws.UnconfiguredReturnsResponse | src/httpClient.js:95 | an unconfigured client fulfils with the response itself |
| DispatchLaws.ClearingStatusCallback | src/httpClient.js:83-85 | `onStatus(s, h)` then `onStatus(s, null)` stores `null`, and a status-`s` response goes where it would with no status callback, never to `h` unless that is the fallback |
| DispatchLaws.FailureRouting | src/httpClient.js:88 | a transport failure fulfils with the error under the default, is handed to a set `onConnectionError`, and is unaffected by every other key |
| DispatchLaws.NonFunctionConnectionHandlerPassesThrough | src/httpClient.js:88 | a truthy non-function `onConnectionError` is ignored by `then`: a transport failure rejects with its own error, never with a TypeError |
| DispatchLaws.DeliveredIgnoresConnectionHandler | src/httpClient.js:80-88 | a delivered response's settlement does not depend on `onConnectionError`, never passes through as a rejection, and is exactly the chosen opaque handler's settlement |
| DispatchLaws.SendOptionsOwnProps | src/httpClient.js:67 | the options sent depend only on the stored options' own properties |
| DispatchLaws.RunMakesOneCall | src/httpClient.js:62-91 | `run` depends on the transport only through its answer to the one prepared call: transports that agree on that call give the same run |
| DispatchLaws.SyncThrowBypassesConnectionHandler | src/httpClient.js:80-88 | a transport that throws when called makes `run` throw that value, whatever `onConnectionError` holds |
| DispatchLaws.TransportChoice | src/httpClient.js:66 | without an override the transport is `global.fetch`; a set fetch is the one called |
| DispatchLaws.RunRequestCall | src/httpClient.js:58-60 | `runRequest(u, o)` calls the transport with `u` (or `null`) and the rewrite of the stored options merged with `o` |
| DispatchLaws.RequestKeepsRouting | src/httpClient.js:52-56 | `request(u, o)` never changes how a delivered response or a transport failure settles |
| Scenarios.NotFoundGoesToStatusCallback | src/httpClient.js:82-87 | a 404 with `onResponse`, `onErrorResponse` and `onStatus(404, h)` set goes to `h` |
| Scenarios.SuccessBeatsOnResponse | src/httpClient.js:48-50 | a 200 goes to `onSuccess` when set, to `onResponse` otherwise |
| Scenarios.ClearedCallbackFallsThrough | src/httpClient.js:103-107 | `onStatus(200, h).onStatus(200, null)` sends a 200 to `onSuccess` |
| Scenarios.JsonRewriteWithoutHeaders | src/httpClient.js:69-78 | options with a JSON body and no headers are sent with the body serialised, a single JSON content-type header and no `json_body` |
| Scenarios.RequestOnBaseSends | src/httpClient.js:52-56 | a request on the unconfigured client sends `SendOptions(o)`, the rewrite of its own options alone, to its url (or `null`) |
| Scenarios.JsonRequestOnBaseSends | src/httpClient.js:58-80 | a request on the unconfigured client with a truthy `json_body` and no headers sends, to its url, its options without `json_body`, with the serialised `body` and a lone JSON content-type header |
| Scenarios.JsonPostIsEncoded | src/httpClient.js:67-80 | `runRequest(url, {method: 'POST', json_body: b})` with truthy `url` and `b` sends exactly `{method, body, headers}`: the serialised body and a JSON content type |
| Scenarios.JsonPostExample | src/httpClient.js:69-70 | for `runRequest('/post', {method: 'POST', json_body: {a: 1}})` the body sent is the serialisation of `{a: 1}` |
| Scenarios.ConnectionErrorScenario | src/httpClient.js:98 | a failing transport fulfils with its error by default and hands it to a set `onConnectionError` |
| Scenarios.CallbackErrorIsolation | src/httpClient.js:80-88 | with `onSuccess` and `onConnectionError` set, a 200 settles as `onSuccess` does, throw included |
| Scenarios.EndToEnd | src/httpClient.js:58-60 | a mock transport's 200 response is the fulfilment value of `runRequest('/test')` |
| Scenarios.FetchOverrideLeavesOriginal | src/httpClient.test.js:26-36 | a client built with its own fetch calls it, and the original client still calls `global.fetch` |
| HeaderAliasing.StoredOptionsAfterRunAsWritten | src/httpClient.js:72-75 | as written, a JSON run adds the JSON content type to a stored headers object and keeps every other stored option; with no JSON body, or headers that are not an object, the stored options are untouched |
| HeaderAliasing.LaterRequestSeesMutatedHeaders | src/httpClient.js:72-75 | as written, after a JSON run a later non-JSON request from the same client sends the mutated headers |
| HeaderAliasing.RunLeaksContentTypeAsWritten | src/httpClient.js:72-75 | the concrete input of the finding below |
| HeaderAliasing.PlainRequestSendsStoredHeaders | src/httpClient.js:67-78 | corrected: a request without a truthy `json_body` sends exactly the stored headers |

## Findings

| source | as written | input that shows it | evidently intended | confidence | as-written member | corrected member |
|---|---|---|---|---|---|---|
| src/httpClient.js:72-75 | `Object.assign(opts.headers \|\| {}, {...})` writes `Content-Type` into the stored headers object, so `run` changes the client that ran | requestOptions `{headers: {Accept: 'text/plain'}, json_body: 1}`, run, then `request('/b', {json_body: null}).run()` sends `Content-Type: application/json` | `Object.assign({}, opts.headers, {...})`, which leaves the stored options alone as the copy on line 67 intends | medium, not executed | HeaderAliasing.RunLeaksContentTypeAsWritten | HeaderAliasing.PlainRequestSendsStoredHeaders |

The rest of the model (`Dispatch.JsonOptions`) builds a fresh headers object.

## Left out

- Promise plumbing: `fetch(...).then(...)` becomes the transport's outcome as an input and the returned promise's settlement as an output. There is no concurrency in the client.
- The transport itself and the network: a parameter. A transport that returns something other than a promise is not modelled.
- `JSON.stringify`: an uninterpreted parameter. Its throws (cycles, BigInt) and its `undefined` result for functions are not modelled.
- Property order: objects are unordered maps, so the serialiser cannot tell apart objects that `JSON.stringify` renders differently only because their properties were inserted in another order.
- Reflective setter synthesis (`this[key] = function ...`): replaced by the fixed `Key` enum and one `Set` that picks the setter kind per key.
- Header aliasing across clients: a shallow merge shares the headers object between a client and the clients derived from it. The line-73 mutation then reaches all of them. The model has no object identity, so `HeaderAliasing` shows the effect on the client that ran only.
- String primitives: `Object.assign` spreads a string's characters into index keys, and a string's indices and `length` can be read. The model gives strings no properties. This only matters when a string is passed where an options or callbacks object is expected.
- Properties inherited from `Object.prototype` (for example `value('toString')`) are not modelled. The keys the client reads (status numbers, `headers`, `json_body`) are not among them.
- Numbers are integers. `NaN`, fractions and the exponent form that `String()` uses from 1e21 on are not modelled.
- A truthy non-object `headers` option: `Object.assign` returns a wrapper object. The model sends an object holding only the content type.
- The jest test file calls `get` and `setFetch`, which the client does not define. Only its immutability intent (lines 26-36) is modelled.
