# use-request: a Dafny model of the request lifecycle

This project models the request-lifecycle core of `use-request`, a React hook
library that runs a request (map the trigger arguments to parameters, perform
the request, map the response) and reports each step as a state change:

- `values.dfy` (`Values`): JavaScript values as the lifecycle code sees them:
  - objects as finite maps, and object spread as map union;
  - truthiness, `typeof`, and the AbortError and TypeError values.
- `reducer.dfy` (`RequestStateReducer`): `requestStateReducer`, one case per action type.
- `cache.js`, modelled by `cache.dfy` (`Cache`):
  - the default cache-id functions;
  - the fetch-policy test `/(?!no-)cache/`;
  - the `byParams`/`byArgs` listener decorators, as a class whose `OnChange`
    updates a shared `Bucket` in place and records its calls in order. The
    wrapped listener and `helpers.abort()` are inputs that may throw, and a
    throw ends the call.
- `utils.dfy` (`Utils`): `identity`, `getCacheReducer` with its conflict
  check, and the bucket choice of `useCacheBucket`.
- `use_request.dfy` (`UseRequest`): the configuration part of `useRequest`:
  - its defaults and its unchecked `getCacheReducer`;
  - the conflict check that runs before it;
  - the reducer composition `stateReducer(finalCacheBy(s, a), a)`.
- `lifecycle.dfy` (`Lifecycle`): what the two attempt engines share:
  - the outcomes of caller-supplied calls;
  - the default `request`, `performRequest` and `mapResponse`;
  - the trace an attempt leaves (reductions, listener calls, aborter calls, stage calls);
  - how `request(...)` ends.
- `initiator.dfy` (`RequestInitiator`): one `request(...args)` call of `useRequestInitiator`.
- `factory.dfy` (`RequestFactory`): one `request(...args)` call of `useRequestFactory`.

Each engine is written twice:
- as a chain of stage functions on a record of the closure locals, with
  lemmas about whole runs;
- as a class `Attempt`, whose fields are those locals and whose methods do
  the same steps in place. Each method's postcondition ties the new state
  and its result to the stage function.

Promise scheduling is not computed. How each awaited stage settles, whether
`abort()` is called meanwhile, and which side of a `Promise.race` wins are
inputs (`Env`, `Race`, `Listen`, `Listener`).

Where the code and the library's own documentation or tests disagree, the
model follows the code:
- the reducer stores the response under `responded` and has no `suspense` field;
- the status the reducer writes after `params_defined` is `'prepared'`. The
  cache looks for `'parameterized'`, a status no lifecycle action produces,
  so its lookup branch is modelled but never reached by the engines (see
  `RequestStateReducer.ReduceAllKeepsLifecycleStatus`).

`src/useRequestInitiator.js` imports three things its sources do not export:
- `useUpdatedRef` from `./utils`, which exports only `identity`,
  `getCacheReducer` and `useCacheBucket`: as written, the hook would call
  `undefined` before `request` exists. It is modelled as the default export
  of `src/useUpdatedRef.js`, the way `src/useRequestFactory.js` imports it:
  a ref that always holds the latest option, so the model reads each option
  directly;
- `reject` from `./utils`: it is modelled as re-throwing its argument, so a
  won abortion race rejects with the AbortError;
- the reducer under a named import: it is modelled as the default export of
  `src/requestStateReducer.js`.

In `useRequestFactory`, the reducer stores the whole `response_received`
payload object as `responded`, so the default `mapResponse` never sees a
response. It rejects with a TypeError on every request; this is proved as
the behaviour of the code as written
(`RequestFactory.DefaultResponseFails`, `RequestFactory.DefaultResponseNeverResolves`).

## Model

| member | source | states |
|---|---|---|
| `RequestStateReducer.TypeName` | src/requestStateReducer.js:2-61 | every named kind maps to one of the eight case labels; an unknown kind keeps its own type string |
| `RequestStateReducer.KindOf` | src/requestStateReducer.js:2-61 | the case a type string selects names that string back, and it is the default case exactly for strings outside the eight labels |
| `RequestStateReducer.KindOfTypeName` | src/requestStateReducer.js:2-61 | type strings and kinds correspond one to one |
| `RequestStateReducer.InitCase` | src/requestStateReducer.js:3-9 | `init` keeps every old field the payload does not override; the payload's fields win; `status` is 'init' and `pending` true unless the payload sets them |
| `RequestStateReducer.ProgressCase` | src/requestStateReducer.js:11-15 | `progress` sets only `progress` to the payload; every other field, status and pending included, is kept |
| `RequestStateReducer.Advance` | src/requestStateReducer.js:17-36 | `params_defined`, `request_sent` and `response_received` set the status and their one payload field, keep every other field and leave `pending` untouched |
| `RequestStateReducer.Settle` | src/requestStateReducer.js:38-59 | `request_succeeded` and `request_failed` set the status, set `pending` false, record the payload and keep every other field |
| `RequestStateReducer.Aborted` | src/requestStateReducer.js:46-51 | `request_aborted` yields exactly `{status: 'aborted', pending: false}` |
| `RequestStateReducer.Merge` | src/requestStateReducer.js:61-65 | an unknown type merges the payload over the state (right-biased), and a payload without `status` leaves the status as it was |
| `RequestStateReducer.Reduce` | src/requestStateReducer.js:1-67 | the reducer is total; every terminal action leaves `pending` false; the three intermediate actions leave `pending` as it was; `request_aborted` drops `requestId` and `args` |
| `RequestStateReducer.ReduceValue` | src/requestStateReducer.js:1 | an `undefined` (or `null` or function) state is read as `{}`, an object as its fields |
| `RequestStateReducer.ReduceAllKeepsLifecycleStatus` | src/requestStateReducer.js:1-67 | any sequence of lifecycle actions keeps the status among the six lifecycle statuses, so no state ever becomes 'parameterized' |
| `RequestStateReducer.ResponseReceivedLeavesPending` | src/requestStateReducer.js:31-36 | after `response_received` the status says 'resolved' while `pending` is still true |
| `RequestStateReducer.FailureKeepsResolution` | src/requestStateReducer.js:53-59 | `request_failed` after a resolution sets status 'rejected', `pending` false and `rejected`, and keeps `resolved` |
| `Values.TypeOf` | src/useRequest.js:70 | `typeof` is 'function' exactly for functions and 'undefined' exactly for `undefined` |
| `Values.ToLowerAscii` | src/cache.js:11 | lower-casing keeps the length and lower-cases each upper-case letter in place |
| `Cache.DefaultGetCachedIdByParams` | src/cache.js:10-15 | null exactly for a given method that is not GET in any letter case; otherwise the encoding of the params; a TypeError for `undefined`/`null` params or a non-string method |
| `Cache.DefaultGetCachedIdByArgs` | src/cache.js:22-24 | the id is the encoding of the argument list |
| `Cache.ArgsIdsSeparate` | src/cache.js:22-24 | under an injective encoding two argument lists share an id only when they are equal |
| `Cache.SearchFromFindsCache` | src/cache.js:42 | the regular-expression search from a position succeeds exactly when "cache" occurs at or after it |
| `Cache.PolicyMatchesIffContainsCache` | src/cache.js:81 | a policy takes part in lookups exactly when it contains "cache": the negative lookahead rules nothing out |
| `Cache.NoCacheMatches` | src/cache.js:42 | 'no-cache', 'cache-first' and 'cache-only' all match |
| `Cache.Overlay` | src/cache.js:51 | the cached fields overlaid by the current state's fields, with status 'resolved' |
| `Cache.React` | src/cache.js:37-62 | these cases follow one another in source order: 1. an aborted state with a resolution is reported twice, resolved copy first; a throw from the first report skips the second. 2. A lookup hit reports the overlay once and calls `abort` first iff 'cache-only'; a throwing `abort` skips the report. 3. A resolved state is stored under the id of its params/args, null ids included, before the listener is called, so it stays stored when the listener throws. 4. Failing id functions propagate. 5. Anything else passes through once with the bucket untouched. A call that throws nothing always ends with a report. |
| `Cache.Bucket.constructor` | src/cache.js:1 | a new bucket is empty |
| `Cache.CachedListener.constructor` | src/cache.js:76 | the decorator keeps its policy, id function and bucket, and has made no calls yet |
| `Cache.CachedListener.OnChange` | src/cache.js:76-101 | the in-place steps, with their early returns on a throw, append exactly the calls `React` prescribes, leave the shared bucket as `React` says, and throw what it says |
| `Cache.Decorate` | src/cache.js:33-36 | an absent id function, policy or bucket takes the policy's default id function, 'cache-first' or the module bucket; the decorator wraps the listener it is given |
| `Cache.SharedBucketRoundTrip` | src/cache.js:43-58 | a state stored by one decorator is found by another sharing its bucket, even when the first one's listener threw; the second reports the overlay once and throws what its listener throws |
| `Utils.Identity` | src/utils.js:4-6 | `identity` returns its argument |
| `Utils.Select` | src/utils.js:25-45 | `cacheBy` selects `byArgs` iff the request mapper is a function; `cacheByArgs: true` and `cacheByParams: true` select the default id; a truthy `cacheByParams` selects `byArgs`; identity iff no option is truthy |
| `Utils.GetCacheReducer` | src/utils.js:8-46 | throws the configuration error iff at least two cache options are given; otherwise returns the selection |
| `Utils.ConstantIdForEveryInput` | src/utils.js:26 | a non-function `cacheBy` gives every input the same id |
| `Utils.ChooseBucket` | src/utils.js:50-54 | 'local' gives the component's map, 'global' gives `undefined`, anything else passes through |
| `UseRequest.GetCacheReducer` | src/useRequest.js:10-38 | never throws; agrees with the checked version wherever that one answers; precedence `cacheBy`, truthy `cacheByArgs`, truthy `cacheByParams`, else identity |
| `UseRequest.WithDefaults` | src/useRequest.js:41-43 | `auto` defaults to true, `abortOnUnmount` to false, `cacheBucket` to 'local'; other options are untouched |
| `UseRequest.CacheOptionsOf` | src/useRequest.js:69-77 | `getCacheReducer` receives `typeof request` and the chosen bucket |
| `UseRequest.Setup` | src/useRequest.js:52-77 | the hook throws iff two cache options are given, before any selection; otherwise it yields the checked selection, with the local bucket by default |
| `UseRequest.ApplyPolicy` | src/useRequest.js:82 | identity returns the state; a decorator returns a function |
| `UseRequest.ComposedReducerAsWritten` | src/useRequest.js:81-82 | without a cache option the reducer sees the state; with one it sees `{}` |
| `UseRequest.ComposedReducerForgetsState` | src/useRequest.js:81-82 | with a cache option, `params_defined` loses `requestId`, `args` and `pending` |
| `UseRequest.ComposedChange` | src/useRequest.js:81-82 | the intended composition: under every policy the reducer receives the previous state and keeps every field the action does not name; without a cache option the listener receives the new state once; with one, the decorator (`Cache.React`, policy 'cache-first') handles the new state |
| `UseRequest.ComposedChangeCachesSuccess` | src/useRequest.js:81-82 | with `cacheByArgs: true` the intended composition keeps `requestId` and `args` on success, stores the state in the bucket under the id of its arguments and reports it once, while the composition as written loses `args` |
| `UseRequest.NoCacheOptionComposesToReducer` | src/useRequest.js:37 | with no cache option the composed reducer is the plain reducer |
| `Lifecycle.DefaultMapRequest` | src/useRequestInitiator.js:51-53 | the default mapping returns the first trigger argument unchanged (`undefined` without one) |
| `Lifecycle.DefaultRequest` | src/useRequestInitiator.js:109 | the default `request` option never throws or rejects |
| `Lifecycle.DefaultPerformRequest` | src/useRequestInitiator.js:23-43 | throws 'useRequest: Invalid request parameters.' iff `params` is falsy, before registering an aborter; otherwise registers one and returns the fetch promise |
| `Lifecycle.Perform` | src/useRequestInitiator.js:111 | the default option is `defaultPerformRequest` on the current state; a custom one behaves as given |
| `Lifecycle.PerformSettles` | src/useRequestInitiator.js:176 | the request promise settles the same way whatever state `performRequest` is called with |
| `Lifecycle.DefaultMapResponse` | src/useRequestInitiator.js:60-68 | never throws synchronously; fulfils with the body iff the response is ok; rejects with the body when not ok, and with a TypeError when `responded` is not a response |
| `Lifecycle.MapResponse` | src/useRequestInitiator.js:110 | the default option is `defaultMapResponse` on the state; a custom one behaves as given |
| `RequestInitiator.AbortStep` | src/useRequestInitiator.js:134-138 | after the end `abort()` changes nothing; before it, it calls the registered aborter (if any) and resolves the abortion |
| `RequestInitiator.RaceStep` | src/useRequestInitiator.js:150-157 | without an abort the stage decides; an abort before the end that settles first rejects with the AbortError; the result is one of the two |
| `RequestInitiator.AborterRuns` | src/useRequestInitiator.js:134-137 | no aborter call after the end or without an aborter; otherwise one per abort |
| `RequestInitiator.DispatchStep` | src/useRequestInitiator.js:214-225 | the reducer runs before the listener sees the new state; after the end the listener is not raced; without an abort the listener's result decides |
| `RequestInitiator.ProgressStep` | src/useRequestInitiator.js:227-232 | progress reports add no lifecycle action and no aborter call, and leave the flags alone |
| `RequestInitiator.ProgressState` | src/useRequestInitiator.js:227-232 | after progress reports only `progress` has changed, and it holds the last report |
| `RequestInitiator.InitAction` | src/useRequestInitiator.js:142-148 | `init` carries the request id and the trigger arguments |
| `RequestInitiator.MapRequestStep` | src/useRequestInitiator.js:150-157 | the `request` function is called with exactly the trigger arguments; a non-function value is the params as it is |
| `RequestInitiator.PerformStep` | src/useRequestInitiator.js:164-169 | `performRequest` is called with the current state, outside any race; its aborter becomes `onAbort` |
| `RequestInitiator.ResponseStep` | src/useRequestInitiator.js:176-177 | `requestEnded` is set once the response is in; an abort that wins rejects and runs the aborter |
| `RequestInitiator.MapResponseStep` | src/useRequestInitiator.js:184-187 | the response mapping is called with the state, adds no lifecycle action, and decides unless an abortion was already resolved |
| `RequestInitiator.TerminalAction` | src/useRequestInitiator.js:195-206 | an AbortError gives `request_aborted`, anything else `request_failed`, carrying the caught value |
| `RequestInitiator.CatchStep` | src/useRequestInitiator.js:193-210 | ends the request and dispatches exactly one terminal action; the state is thrown iff the matching flag is set; only a synchronous throw of the listener escapes |
| `RequestInitiator.Attempt.constructor` | src/useRequestInitiator.js:130-131 | an attempt starts with no state, not ended, no abortion and no aborter |
| `RequestInitiator.Attempt.Abort` | src/useRequestInitiator.js:134-138 | `abort()` in place, as `AbortStep` |
| `RequestInitiator.Attempt.RaceAbortion` | src/useRequestInitiator.js:151 | the race against `abortion` in place, as `RaceStep` |
| `RequestInitiator.Attempt.Dispatch` | src/useRequestInitiator.js:214-225 | `dispatch` in place, as `DispatchStep` |
| `RequestInitiator.Attempt.SetProgress` | src/useRequestInitiator.js:227-232 | one `setProgress` in place |
| `RequestInitiator.Attempt.ReportProgress` | src/useRequestInitiator.js:165 | successive `setProgress` calls, as `ProgressStep` |
| `RequestInitiator.Attempt.MapRequest` | src/useRequestInitiator.js:150-157 | the params stage in place |
| `RequestInitiator.Attempt.PerformRequest` | src/useRequestInitiator.js:164-169 | the perform stage in place |
| `RequestInitiator.Attempt.Send` | src/useRequestInitiator.js:142-174 | the stages up to `request_sent`, each after the one before fulfils |
| `RequestInitiator.Attempt.AwaitResponse` | src/useRequestInitiator.js:176-177 | the response stage in place |
| `RequestInitiator.Attempt.MapResponse` | src/useRequestInitiator.js:184-187 | the mapping stage in place |
| `RequestInitiator.Attempt.Receive` | src/useRequestInitiator.js:176-192 | the stages from the response on |
| `RequestInitiator.Attempt.Try` | src/useRequestInitiator.js:141-192 | the `try` block |
| `RequestInitiator.Attempt.Catch` | src/useRequestInitiator.js:193-210 | the `catch` block in place, as `CatchStep` |
| `RequestInitiator.Attempt.Execute` | src/useRequestInitiator.js:129-213 | the whole attempt, as `Run` |
| `RequestInitiator.Initiator.constructor` | src/useRequestInitiator.js:119 | the counter starts at 0 |
| `RequestInitiator.Initiator.Request` | src/useRequestInitiator.js:145 | each call takes the counter as its request id and increments it once |
| `RequestInitiator.DispatchLog` | src/useRequestInitiator.js:214-215 | a dispatch adds its own action type to the dispatched ones, and calls no aborter after the end or without one |
| `RequestInitiator.InitComesFirst` | src/useRequestInitiator.js:142-148 | every trace begins with the reduction and report of `init`, carrying the request id |
| `RequestInitiator.DistinctCountersDistinctIds` | src/useRequestInitiator.js:145 | two calls with different counter values carry different request ids |
| `RequestInitiator.SendCalm` | src/useRequestInitiator.js:142-174 | with nothing aborting or failing: `init`, `params_defined`, `request_sent` in order, no aborter call, the aborter registered iff `performRequest` registers one |
| `RequestInitiator.ReceiveCalm` | src/useRequestInitiator.js:176-192 | then `response_received`, `request_succeeded`: resolved, not pending, holding the mapped response |
| `RequestInitiator.TryCalm` | src/useRequestInitiator.js:141-192 | the `try` block completes with the listener's result after the five actions |
| `RequestInitiator.SuccessPath` | src/useRequestInitiator.js:142-212 | the five lifecycle actions in order, no aborter call, and the resolved, settled state is returned |
| `RequestInitiator.CatchLog` | src/useRequestInitiator.js:193-209 | the `catch` block dispatches exactly one terminal action and calls no aborter |
| `RequestInitiator.RunFails` | src/useRequestInitiator.js:202-208 | a failure that is not an AbortError ends with `request_failed`, keeps the resolution, and is thrown iff `throwOnRejections` |
| `RequestInitiator.CaughtFailure` | src/useRequestInitiator.js:203-206 | `request_failed` leaves status 'rejected', the caught value and the earlier resolution |
| `RequestInitiator.TryAbortedAwaitingResponse` | src/useRequestInitiator.js:176 | an abort that wins the race for the response rejects with the AbortError and runs the aborter iff one is registered |
| `RequestInitiator.AbortWhileAwaitingResponse` | src/useRequestInitiator.js:195-201 | such an abort dispatches `request_aborted` instead of `response_received` and ends with the bare aborted state, thrown iff `throwOnAbortions` |
| `RequestInitiator.ParamsRefused` | src/useRequestInitiator.js:159-169 | falsy params are still reduced by `params_defined`, and then the default `performRequest` throws |
| `RequestInitiator.MissingParamsFail` | src/useRequestInitiator.js:27-29 | so the attempt dispatches `init`, `params_defined`, `request_failed` with the refusal, and sends nothing |
| `RequestInitiator.TrySucceededThenRejected` | src/useRequestInitiator.js:189-192 | a listener result for `request_succeeded` that rejects fails the `try` block after the resolution |
| `RequestInitiator.SucceededThenFailed` | src/useRequestInitiator.js:189-206 | then `request_failed` follows `request_succeeded`, and the failed state keeps the resolution |
| `RequestInitiator.DispatchAfterEnd` | src/useRequestInitiator.js:217-219 | after the end a dispatch does not depend on the listener's `abort()` calls |
| `RequestInitiator.AbortsAfterResponseIgnored` | src/useRequestInitiator.js:134-135 | every `abort()` after the response changes nothing in the attempt |
| `RequestFactory.HookStep` | src/useRequestFactory.js:153-156 | the `request_sent` abort calls the registered aborter and then sets `aborted`, or throws a TypeError before anything when none is registered; the `init` and `response_received` aborts only set the flag; `unsubscribe` sets its flag; the terminal aborts do nothing |
| `RequestFactory.HooksStep` | src/useRequestFactory.js:219 | a listener's hooks in order, stopping at the first error; flags only rise; no lifecycle action is added |
| `RequestFactory.WaitStep` | src/useRequestFactory.js:160 | hooks called while a stage is awaited: flags only rise; their errors do not reach the attempt |
| `RequestFactory.Check` | src/useRequestFactory.js:214-215 | throws the AbortError iff `aborted && !interruped` |
| `RequestFactory.ListenStep` | src/useRequestFactory.js:219-223 | an abort made by the listener is noticed right after it returns; otherwise the listener's own error decides |
| `RequestFactory.PropagateStep` | src/useRequestFactory.js:212-224 | 1. An armed abort throws before the reducer runs. 2. Otherwise the state is reduced. 3. Once unsubscribed, the listener is skipped but the state still changes. 4. After `interruped`, only the listener can make it throw. |
| `RequestFactory.InitAction` | src/useRequestFactory.js:122-133 | `init` carries `unsubscribe`, `abort` and the arguments |
| `RequestFactory.SentPayload` | src/useRequestFactory.js:149-158 | `request_sent` carries the request promise and its `abort` |
| `RequestFactory.ReceivedPayload` | src/useRequestFactory.js:162-171 | `response_received` carries a plain object holding request, response and `abort`, not the response itself |
| `RequestFactory.SucceededPayload` | src/useRequestFactory.js:175-181 | `request_succeeded` carries the mapped response and a no-op `abort` |
| `RequestFactory.RejectedPayload` | src/useRequestFactory.js:199-205 | the terminal payloads carry the caught value and a no-op `abort`, and set neither `resolved` nor `status` |
| `RequestFactory.MapRequestStep` | src/useRequestFactory.js:135-137 | the `request` function is called with the trigger arguments, a value is used as it is, and either is awaited |
| `RequestFactory.PerformStep` | src/useRequestFactory.js:144-147 | `performRequest` is called with the current state; its aborter becomes `abort` |
| `RequestFactory.ResponseStep` | src/useRequestFactory.js:160 | `await requested` settles as the request promise does |
| `RequestFactory.MapResponseStep` | src/useRequestFactory.js:173 | the response mapping is called with the state and adds no lifecycle action |
| `RequestFactory.TerminalAction` | src/useRequestFactory.js:186-205 | an AbortError gives `request_aborted`, anything else `request_failed` |
| `RequestFactory.CatchStep` | src/useRequestFactory.js:184-210 | `interruped` is set first, so the terminal change is always reduced; an error escapes only from its listener; otherwise the state is thrown iff the matching flag is set |
| `RequestFactory.Attempt.constructor` | src/useRequestFactory.js:115-118 | an attempt starts with all flags false and no state |
| `RequestFactory.Attempt.CallHook` | src/useRequestFactory.js:128-130 | one hook call in place, as `HookStep` |
| `RequestFactory.Attempt.CallHooks` | src/useRequestFactory.js:219 | the listener's hook calls in place, as `HooksStep` |
| `RequestFactory.Attempt.Wait` | src/useRequestFactory.js:160 | the hook calls during a wait in place, as `WaitStep` |
| `RequestFactory.Attempt.Propagate` | src/useRequestFactory.js:212-224 | `propagateChange` in place, as `PropagateStep` |
| `RequestFactory.Attempt.MapRequest` | src/useRequestFactory.js:135-137 | the params stage in place |
| `RequestFactory.Attempt.PerformRequest` | src/useRequestFactory.js:144-147 | the perform stage in place |
| `RequestFactory.Attempt.AwaitResponse` | src/useRequestFactory.js:160 | the response stage in place |
| `RequestFactory.Attempt.MapResponse` | src/useRequestFactory.js:173 | the mapping stage in place |
| `RequestFactory.Attempt.Prepare` | src/useRequestFactory.js:122-147 | the stages up to `performRequest` |
| `RequestFactory.Attempt.Deliver` | src/useRequestFactory.js:149-181 | the stages from `request_sent` on |
| `RequestFactory.Attempt.Try` | src/useRequestFactory.js:121-183 | the `try` block |
| `RequestFactory.Attempt.Catch` | src/useRequestFactory.js:184-210 | the `catch` block in place, as `CatchStep` |
| `RequestFactory.Attempt.Execute` | src/useRequestFactory.js:114-210 | the whole attempt, as `Run` |
| `RequestFactory.Request` | src/useRequestFactory.js:114-227 | `request(...args)` on a fresh attempt ends as `Run` says and leaves its trace |
| `RequestFactory.PropagateLog` | src/useRequestFactory.js:217-219 | a change past the first check adds its own action type, and calls the aborter only through the listener |
| `RequestFactory.CalmPropagate` | src/useRequestFactory.js:212-224 | a calm change is reduced, reported unless unsubscribed, and completes |
| `RequestFactory.PreparedCalm` | src/useRequestFactory.js:122-147 | calm stages reduce `init` then `params_defined`, and `performRequest` sees the parameters |
| `RequestFactory.ParamsStateHoldsParams` | src/useRequestFactory.js:139-145 | the state `performRequest` receives holds the parameters |
| `RequestFactory.ParamsStateCarriesHooks` | src/useRequestFactory.js:122-145 | that state also still holds the `init` payload's `abort` and `unsubscribe`, and the arguments |
| `RequestFactory.DefaultPerformChecksParams` | src/useRequestFactory.js:23-26 | the default `performRequest` refuses exactly falsy parameters |
| `RequestFactory.MappedCalm` | src/useRequestFactory.js:122-173 | calm stages reduce four actions in order and call the response mapping with the state `response_received` left |
| `RequestFactory.CatchLog` | src/useRequestFactory.js:184-209 | the `catch` block adds exactly one terminal action; a listener that cannot throw leaves the flags to decide |
| `RequestFactory.RunFails` | src/useRequestFactory.js:199-209 | a failure that is not an AbortError ends with `request_failed`, keeps the resolution, and is thrown iff `throwOnRejections` |
| `RequestFactory.CaughtFailure` | src/useRequestFactory.js:199-205 | `request_failed` leaves status 'rejected', the rejected payload and the earlier resolution |
| `RequestFactory.RunAborts` | src/useRequestFactory.js:186-196 | an AbortError ends with `request_aborted` and the bare aborted state, thrown iff `throwOnAbortions` |
| `RequestFactory.TrySucceeds` | src/useRequestFactory.js:121-181 | with calm listeners and a fulfilling mapping the `try` block completes after five changes |
| `RequestFactory.SuccessPath` | src/useRequestFactory.js:121-183 | the five lifecycle actions in order, no aborter call, and the resolved, settled state is returned |
| `RequestFactory.DefaultMappingSeesPayload` | src/useRequestFactory.js:162-173 | the default mapping reads the `response_received` payload object, never a response, and rejects with a TypeError |
| `RequestFactory.DefaultResponseNeverCompletes` | src/useRequestFactory.js:173 | with the default `response` option the `try` block never completes |
| `RequestFactory.DefaultResponseNeverResolves` | src/useRequestFactory.js:96 | so every request with that default ends aborted or rejected |
| `RequestFactory.DefaultResponseFails` | src/useRequestFactory.js:57-65 | with calm listeners it fails right after `response_received` with the TypeError |
| `RequestFactory.TryAfterSuccess` | src/useRequestFactory.js:175-181 | after a calm success the `request_succeeded` listener decides: an abort or a throw fails the `try` block on the resolved state |
| `RequestFactory.SucceededThenAborted` | src/useRequestFactory.js:219-223 | an abort made by the `request_succeeded` listener turns the success into `request_aborted` |
| `RequestFactory.SucceededThenThrew` | src/useRequestFactory.js:175-207 | a throw of that listener adds `request_failed`, which keeps the resolution (or `request_aborted` for an AbortError) |
| `RequestFactory.TryAbortedAwaitingResponse` | src/useRequestFactory.js:160-162 | an abort while the response is awaited is noticed by the check before `response_received` |
| `RequestFactory.AbortWhileAwaitingResponse` | src/useRequestFactory.js:214-215 | so `response_received` is never reduced and the attempt ends aborted |
| `RequestFactory.MissingParamsFail` | src/useRequestFactory.js:23-26 | falsy parameters with the default `performRequest`: `init`, `params_defined`, `request_failed`, nothing sent |

## Left out

- React glue: the hook's refs and effects, `useUpdatedRef`, `useRequestReporter`,
  `Request.js`, and the `useState` inside `useCacheBucket`. Only their decisions are modelled.
- The generated bundles under `dist/`, the re-exports in `src/index.js`, and the tests.
- Network I/O: `fetch`, `AbortController` and `responded.json()` are inputs.
  Fetching yields a value and a settlement, and a response carries its parsed body.
- Promise scheduling (`thenOnce`, the microtask order of `Promise.race`): the winner of each race is an input.
- `JSON.stringify` is an opaque parameter that always yields a string, and `Symbol(n)` is the counter value `n`. In JavaScript, `JSON.stringify` of a function yields `undefined`, so a `Func` params value is not encoded as the source would encode it.
- `Cache.Bucket`: its keys are compared as values. A JavaScript `Map` compares object keys by identity, so an id function that returns a fresh object never hits in the source, but can hit in the model. This matters only on the lookup path, which the engines never reach.
- Object spread copies the fields of plain objects only. The own properties of arrays, strings and errors are not modelled.
- `toLowerCase` is ASCII lower-casing. That is enough for the comparison with 'get', but not for Unicode case mapping in general.
- A custom `stateReducer` option is not modelled: both engines use `requestStateReducer`.
- RequestInitiator.AbortStep: the registered aborter (`onAbort`) is taken to return. In the source, a throwing `onAbort` skips `resolve(...)`, so the abortion stays unresolved, and the error goes to whoever called `abort()`. The model does not capture this.
- RequestInitiator.ProgressStep: `setProgress` calls happen only while the response is awaited or mapped. Two source behaviours are not modelled: a custom `performRequest` calling `setProgress` synchronously, which reports progress before `request_sent`; and a listener calling the `setProgress` it receives.
- Initiator inputs:
  - at most one `abort()` call per stage and per listener call;
  - a listener result that enters a race is taken to settle;
  - progress listeners are taken to return normally.
- The initiator's `abort` function handed to listeners is reached only through those `abort()` calls. Its repeated calls would run the aborter again, which the model does not show.
- Factory inputs:
  - any hook a listener or a waiting party calls may be one whose payload was not yet dispatched;
  - a custom aborter never throws.
- RequestFactory.PerformStep: a custom `performRequest` is taken to call no hook, and to register its aborter (or not) before it returns. Two source behaviours are not modelled:
  - a custom `performRequest` calling the `state.abort()` or `state.unsubscribe()` its state carries (see `RequestFactory.ParamsStateCarriesHooks`). For `abort()`, the check before `request_sent` would then throw, giving `init`, `params_defined`, `request_aborted`;
  - an aborter registered after `performRequest` returns, for example after an `await` inside it. A `request_sent` `abort()` would fail with a TypeError before that registration and run the aborter after it.
- `Lifecycle.DefaultMapResponse`, in both engines: a `responded` value that is not a fetch response is taken to have no `json` method, so it rejects with a TypeError. An object with its own `json` method is not modelled.
- RequestInitiator.SuccessPath: states the status, `pending` and `resolved` of the final state. The other fields (`responded`, `params`, `requestId`) are left to the reducer lemmas, to keep the proof small.
- RequestFactory.SuccessPath: states the status, `pending` and `resolved` of the final state, for the same reason.
- RequestInitiator.ProgressStep: its contract does not speak about the state; `RequestInitiator.ProgressState` states what progress reports do to it.

## Findings

| source | as written | input that shows it | evidently intended | confidence | as-written member | corrected member |
|---|---|---|---|---|---|---|
| src/useRequest.js:81-82 | the cache decorator, a listener wrapper, is applied to the state as if it were a reducer; with any cache option the reducer receives a function, whose spread is empty | `cacheByArgs: true`, then `params_defined` on a state holding `requestId` and `args`: both are gone and `pending` is unset | the reducer sees the previous state under every cache option, and the decorator wraps the change listener | not executed | `UseRequest.ComposedReducerAsWritten` (shown by `UseRequest.ComposedReducerForgetsState`) | `UseRequest.ComposedChange` (shown by `UseRequest.ComposedChangeCachesSuccess`) |
